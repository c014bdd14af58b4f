/** What one call of `out` sends where, and what `Critical` does step by step,
    as functions from the logger's configuration and the outside world to the
    sequence of observable events. */
module Dispatch {
  import opened LineFormat

  /** An `io.Writer` registered with the logger, known only by identity. */
  type WriterId = nat

  /** The part of the logger's state that decides where a line goes: the
      `console` flag and the registered writers in registration order (the
      flattened list behind `io.MultiWriter`; empty for a nil `writer`). */
  datatype Config = Config(console: bool, writers: seq<WriterId>)

  /** An observable effect of the logger. */
  datatype Event =
    | Console(color: Color, text: string)             // a coloured console print of a composed line
    | Write(writer: WriterId, text: string, ok: bool) // one `Write` on a registered writer, and whether it succeeded
    | Pause(ms: nat)                                  // `time.Sleep`
    | Exit(status: int)                               // `os.Exit`

  /** `fmt.Fprint` on the sink: one `Write` per writer in registration order,
      up to and including the first that fails (that is what `io.MultiWriter`
      does); the error goes no further. */
  function Deliver(writers: seq<WriterId>, text: string, failing: set<WriterId>): seq<Event> {
    if writers == [] then []
    else if writers[0] in failing then [Write(writers[0], text, false)]
    else [Write(writers[0], text, true)] + Deliver(writers[1..], text, failing)
  }

  /** The sink offers every writer it reaches the same text, in registration
      order; it stops only at a writer that fails, and every writer before that
      one succeeded. */
  lemma {:induction false} DeliverInOrder(writers: seq<WriterId>, text: string, failing: set<WriterId>)
    ensures |Deliver(writers, text, failing)| <= |writers|
    ensures forall i :: 0 <= i < |Deliver(writers, text, failing)| ==>
              Deliver(writers, text, failing)[i] == Write(writers[i], text, writers[i] !in failing)
    ensures forall i :: 0 <= i < |Deliver(writers, text, failing)| - 1 ==> writers[i] !in failing
    ensures |Deliver(writers, text, failing)| < |writers| ==>
              0 < |Deliver(writers, text, failing)| && writers[|Deliver(writers, text, failing)| - 1] in failing
  {
    if writers != [] && writers[0] !in failing {
      var r := Deliver(writers, text, failing);
      var rest := Deliver(writers[1..], text, failing);
      DeliverInOrder(writers[1..], text, failing);
      assert r == [Write(writers[0], text, true)] + rest;
      forall i | 0 < i < |r|
        ensures r[i] == Write(writers[i], text, writers[i] !in failing)
      {
        assert r[i] == rest[i - 1] && writers[i] == writers[1..][i - 1];
      }
      forall i | 0 < i < |r| - 1
        ensures writers[i] !in failing
      {
        assert writers[i] == writers[1..][i - 1];
      }
    }
  }

  /** When no writer fails, every writer receives the text, once each, in
      registration order. */
  lemma DeliverToAll(writers: seq<WriterId>, text: string, failing: set<WriterId>)
    requires forall j :: 0 <= j < |writers| ==> writers[j] !in failing
    ensures |Deliver(writers, text, failing)| == |writers|
    ensures forall j :: 0 <= j < |writers| ==> Deliver(writers, text, failing)[j] == Write(writers[j], text, true)
  {
    DeliverInOrder(writers, text, failing);
  }

  /** The console print of `out`: only when the console is enabled, and only
      for a tag the colour table knows. */
  function ConsoleEvents(console: bool, tag: string, line: string): seq<Event> {
    if console && ConsoleColor(tag).Some? then [Console(ConsoleColor(tag).value, line)] else []
  }

  /** Everything one call of `out` does with a composed line. */
  function OutEvents(cfg: Config, tag: string, line: string, failing: set<WriterId>): seq<Event> {
    if !cfg.console && cfg.writers == [] then []
    else ConsoleEvents(cfg.console, tag, line) + Deliver(cfg.writers, Terminated(line), failing)
  }

  /** What one call of `out` produces: nothing with the console off and no
      sink; otherwise first the console print, in the tag's colour, of the line
      as composed, if the console is on and the tag has a colour; then the
      sink's writes, each carrying the newline-terminated line. */
  lemma OutEventsShape(cfg: Config, tag: string, line: string, failing: set<WriterId>)
    ensures !cfg.console && cfg.writers == [] ==> OutEvents(cfg, tag, line, failing) == []
    ensures var r := OutEvents(cfg, tag, line, failing);
            (|r| > 0 && r[0].Console?) <==> cfg.console && ConsoleColor(tag).Some?
    ensures var r := OutEvents(cfg, tag, line, failing);
            |r| > 0 && r[0].Console? ==> r[0] == Console(ConsoleColor(tag).value, line)
    ensures var r := OutEvents(cfg, tag, line, failing);
            forall i :: 0 <= i < |r| && !r[i].Console? ==> r[i].Write? && r[i].text == Terminated(line)
    ensures var r := OutEvents(cfg, tag, line, failing);
            forall i :: 0 < i < |r| ==> r[i].Write?
    ensures OutEvents(cfg, tag, line, failing)[|ConsoleEvents(cfg.console, tag, line)|..] ==
            Deliver(cfg.writers, Terminated(line), failing)
  {
    var r := OutEvents(cfg, tag, line, failing);
    var c := ConsoleEvents(cfg.console, tag, line);
    var w := Deliver(cfg.writers, Terminated(line), failing);
    DeliverInOrder(cfg.writers, Terminated(line), failing);
    assert r == c + w;
    assert r[|c|..] == w;
    forall i | 0 <= i < |r| && (i > 0 || !r[i].Console?)
      ensures r[i].Write? && r[i].text == Terminated(line)
    {
      if |c| == 1 {
        assert i > 0 && r[i] == w[i - 1];
      } else {
        assert r[i] == w[i];
      }
    }
  }

  /** With healthy writers, one log call hands every registered writer the same
      newline-terminated bytes, in registration order, right after the console
      print if there is one. */
  lemma {:induction false} OutReachesEveryWriter(cfg: Config, tag: string, line: string, failing: set<WriterId>)
    requires forall j :: 0 <= j < |cfg.writers| ==> cfg.writers[j] !in failing
    ensures var r := OutEvents(cfg, tag, line, failing);
            var k := |ConsoleEvents(cfg.console, tag, line)|;
            |r| == k + |cfg.writers| &&
            forall j :: 0 <= j < |cfg.writers| ==> r[k + j] == Write(cfg.writers[j], Terminated(line), true)
  {
    var r := OutEvents(cfg, tag, line, failing);
    var k := |ConsoleEvents(cfg.console, tag, line)|;
    DeliverToAll(cfg.writers, Terminated(line), failing);
    OutEventsShape(cfg, tag, line, failing);
    assert r[k..] == Deliver(cfg.writers, Terminated(line), failing);
    forall j | 0 <= j < |cfg.writers|
      ensures r[k + j] == Write(cfg.writers[j], Terminated(line), true)
    {
      assert r[k + j] == r[k..][j];
    }
  }

  /** `out` called with a tag, a template and its arguments at time `date`. */
  function Emitted(cfg: Config, tag: string, format: string, args: seq<Value>, date: string,
                   failing: set<WriterId>, sprintf: Formatter): seq<Event>
  {
    OutEvents(cfg, tag, Compose(date, tag, format, args, sprintf), failing)
  }

  /** One step of a fixed sequence of logger actions. */
  datatype Step = Emit(tag: string, format: string, args: seq<Value>) | Wait(ms: nat) | Terminate(status: int)

  /** The outside world during a run of steps, by step number: the time the
      clock shows, the writers whose `Write` fails, and `fmt.Sprintf`. */
  datatype Env = Env(clock: nat -> string, faults: nat -> set<WriterId>, sprintf: Formatter)

  /** What the logger does for one step, step number `k`. */
  function StepEvents(s: Step, k: nat, cfg: Config, env: Env): seq<Event> {
    match s
    case Emit(tag, format, args) => Emitted(cfg, tag, format, args, env.clock(k), env.faults(k), env.sprintf)
    case Wait(ms) => [Pause(ms)]
    case Terminate(status) => [Exit(status)]
  }

  /** A meaning for steps: the events of a step, given its number. */
  type Meaning = (Step, nat) -> seq<Event>

  /** The logger's meaning for steps, in a given configuration and world. */
  function Semantics(cfg: Config, env: Env): Meaning {
    (s: Step, k: nat) => StepEvents(s, k, cfg, env)
  }

  // The three lemmas below apply the logger's meaning to one step each. The
  // proofs of `Critical` call them instead of unfolding `Semantics` where the
  // whole plan is in view, which keeps each proof small.

  /** What the logger's meaning gives a step that logs a line. */
  lemma EmitMeaning(cfg: Config, env: Env, tag: string, format: string, args: seq<Value>, k: nat)
    ensures Semantics(cfg, env)(Emit(tag, format, args), k) ==
            Emitted(cfg, tag, format, args, env.clock(k), env.faults(k), env.sprintf)
  {
  }

  /** What the logger's meaning gives a sleep. */
  lemma WaitMeaning(cfg: Config, env: Env, ms: nat, k: nat)
    ensures Semantics(cfg, env)(Wait(ms), k) == [Pause(ms)]
  {
  }

  /** What the logger's meaning gives the exit. */
  lemma TerminateMeaning(cfg: Config, env: Env, status: int, k: nat)
    ensures Semantics(cfg, env)(Terminate(status), k) == [Exit(status)]
  {
  }

  /** The events of running `steps` in order, the first being step number `k`. */
  function Run(steps: seq<Step>, k: nat, m: Meaning): seq<Event>
    decreases |steps|
  {
    if steps == [] then [] else m(steps[0], k) + Run(steps[1..], k + 1, m)
  }

  /** Running two step sequences one after the other. */
  lemma {:induction false} RunAppend(a: seq<Step>, b: seq<Step>, k: nat, m: Meaning)
    ensures Run(a + b, k, m) == Run(a, k, m) + Run(b, k + |a|, m)
    decreases |a|
  {
    if a == [] {
      assert a + b == b;
    } else {
      assert (a + b)[1..] == a[1..] + b;
      RunAppend(a[1..], b, k + 1, m);
    }
  }

  /** The number of seconds `Critical` counts down from. */
  const Seconds: nat := 5

  /** The `for i := 5; i > 0; i--` countdown of `Critical`, from `i` down to 1. */
  function CountdownSteps(i: nat): (r: seq<Step>)
    ensures |r| == 2 * i
  {
    if i == 0 then [] else [Emit(WarningTag, "%v seconds", [Int(i)]), Wait(1000)] + CountdownSteps(i - 1)
  }

  /** One round of the countdown: the warning naming `i`, then a one-second pause.
      The next counter and step number come in as `i'` and `k'`, tied to `i`
      and `k` by the precondition: the loop of `Log.Countdown` holds them in
      variables, and matching `CountdownSteps(i')` against `CountdownSteps(i - 1)`
      there would cost the verifier arithmetic it does here once. */
  lemma CountdownUnfold(i: nat, k: nat, i': nat, k': nat, m: Meaning)
    requires i > 0 && i' == i - 1 && k' == k + 2
    ensures Run(CountdownSteps(i), k, m) ==
            m(Emit(WarningTag, "%v seconds", [Int(i)]), k) + m(Wait(1000), k + 1)
            + Run(CountdownSteps(i'), k', m)
  {
    var head: seq<Step> := [Emit(WarningTag, "%v seconds", [Int(i)]), Wait(1000)];
    assert CountdownSteps(i) == head + CountdownSteps(i');
    RunAppend(head, CountdownSteps(i'), k, m);
    assert head[1..][1..] == [];
    assert Run(head, k, m) == m(head[0], k) + m(head[1], k + 1);
  }

  /** The start of `Critical`: the CRIT line, a 100 ms pause, the exit
      announcement. */
  function OpeningSteps(format: string, args: seq<Value>): seq<Step> {
    [Emit(CriticalTag, format, args), Wait(100), Emit(WarningTag, "The program will exit in:", [])]
  }

  /** The end of `Critical`: the farewell, a one-second pause, exit status 1. */
  function ClosingSteps(): seq<Step> {
    [Emit(InfoTag, "Bye!", []), Wait(1000), Terminate(1)]
  }

  /** What `Critical` does: the opening, the countdown, the closing. */
  function CriticalPlan(format: string, args: seq<Value>): seq<Step> {
    OpeningSteps(format, args) + CountdownSteps(Seconds) + ClosingSteps()
  }

  /** Running three steps. */
  lemma RunThree(x: Step, y: Step, z: Step, k: nat, m: Meaning)
    ensures Run([x, y, z], k, m) == m(x, k) + m(y, k + 1) + m(z, k + 2)
  {
    var s := [x, y, z];
    assert s[1..] == [y, z] && s[1..][1..] == [z] && s[1..][1..][1..] == [];
    assert Run([z], k + 2, m) == m(z, k + 2) + Run([], k + 3, m);
    assert Run([y, z], k + 1, m) == m(y, k + 1) + Run([z], k + 2, m);
    assert Run(s, k, m) == m(x, k) + Run([y, z], k + 1, m);
  }

  /** `Critical` phase by phase: the opening is steps 0 to 2, the countdown
      steps 3 to 12, the closing steps 13 to 15. */
  lemma CriticalPlanRun(format: string, args: seq<Value>, m: Meaning)
    ensures Run(CriticalPlan(format, args), 0, m) ==
            Run(OpeningSteps(format, args), 0, m) + Run(CountdownSteps(Seconds), 3, m) + Run(ClosingSteps(), 13, m)
  {
    var opening, countdown := OpeningSteps(format, args), CountdownSteps(Seconds);
    RunAppend(opening + countdown, ClosingSteps(), 0, m);
    RunAppend(opening, countdown, 0, m);
  }

  /** The opening, whatever the steps mean. */
  lemma OpeningUnfold(format: string, args: seq<Value>, m: Meaning)
    ensures Run(OpeningSteps(format, args), 0, m) ==
            m(Emit(CriticalTag, format, args), 0) + m(Wait(100), 1)
            + m(Emit(WarningTag, "The program will exit in:", []), 2)
  {
    RunThree(Emit(CriticalTag, format, args), Wait(100), Emit(WarningTag, "The program will exit in:", []), 0, m);
  }

  /** The events of the opening in the logger's meaning: the CRIT line with the
      caller's template and arguments, the pause, the announcement. */
  lemma OpeningRun(format: string, args: seq<Value>, cfg: Config, env: Env)
    ensures Run(OpeningSteps(format, args), 0, Semantics(cfg, env)) ==
            Emitted(cfg, CriticalTag, format, args, env.clock(0), env.faults(0), env.sprintf)
            + [Pause(100)]
            + Emitted(cfg, WarningTag, "The program will exit in:", [], env.clock(2), env.faults(2), env.sprintf)
  {
    OpeningUnfold(format, args, Semantics(cfg, env));
    EmitMeaning(cfg, env, CriticalTag, format, args, 0);
    WaitMeaning(cfg, env, 100, 1);
    EmitMeaning(cfg, env, WarningTag, "The program will exit in:", [], 2);
  }

  /** The closing, whatever the steps mean. */
  lemma ClosingUnfold(m: Meaning)
    ensures Run(ClosingSteps(), 13, m) == m(Emit(InfoTag, "Bye!", []), 13) + m(Wait(1000), 14) + m(Terminate(1), 15)
  {
    RunThree(Emit(InfoTag, "Bye!", []), Wait(1000), Terminate(1), 13, m);
  }

  /** The events of the closing in the logger's meaning: the farewell, the
      pause, the exit with status 1. */
  lemma ClosingRun(cfg: Config, env: Env)
    ensures Run(ClosingSteps(), 13, Semantics(cfg, env)) ==
            Emitted(cfg, InfoTag, "Bye!", [], env.clock(13), env.faults(13), env.sprintf)
            + [Pause(1000)] + [Exit(1)]
  {
    ClosingUnfold(Semantics(cfg, env));
    EmitMeaning(cfg, env, InfoTag, "Bye!", [], 13);
    WaitMeaning(cfg, env, 1000, 14);
    TerminateMeaning(cfg, env, 1, 15);
  }

  /** Moving a stretch of events from what is pending to what is done: the
      step by which a loop round turns its pending events into trace. */
  lemma Shift(t: seq<Event>, e: seq<Event>, p: seq<Event>, rest: seq<Event>, t': seq<Event>, goal: seq<Event>)
    requires t + (e + p + rest) == goal && t' == t + e + p
    ensures t' + rest == goal
  {
    AppendAssociative(t + e, p, rest);
    AppendAssociative(t, e, p + rest);
    AppendAssociative(e, p, rest);
  }

  /** One round of the countdown loop of `Critical` in the logger's meaning:
      the warning naming `i` and the one-second pause leave the rest of the
      countdown pending. */
  lemma CountdownRound(i: nat, k: nat, i': nat, k': nat, cfg: Config, env: Env, t: seq<Event>, t': seq<Event>, goal: seq<Event>)
    requires i > 0 && i' == i - 1 && k' == k + 2
    requires t + Run(CountdownSteps(i), k, Semantics(cfg, env)) == goal
    requires t' == t + Emitted(cfg, WarningTag, "%v seconds", [Int(i)], env.clock(k), env.faults(k), env.sprintf)
                     + [Pause(1000)]
    ensures t' + Run(CountdownSteps(i'), k', Semantics(cfg, env)) == goal
  {
    var m := Semantics(cfg, env);
    CountdownUnfold(i, k, i', k', m);
    EmitMeaning(cfg, env, WarningTag, "%v seconds", [Int(i)], k);
    WaitMeaning(cfg, env, 1000, k + 1);
    Shift(t, Emitted(cfg, WarningTag, "%v seconds", [Int(i)], env.clock(k), env.faults(k), env.sprintf), [Pause(1000)],
          Run(CountdownSteps(i'), k', m), t', goal);
  }

  /** Regrouping a concatenation. */
  lemma AppendAssociative<T>(a: seq<T>, b: seq<T>, c: seq<T>)
    ensures a + (b + c) == a + b + c
  {
  }

  /** Appending three stretches one after the other. */
  lemma AppendThree<T>(s: seq<T>, a: seq<T>, b: seq<T>, c: seq<T>)
    ensures s + (a + b + c) == s + a + b + c
  {
    AppendAssociative(s, a + b, c);
    AppendAssociative(s, a, b);
  }

  /** The plan written out step by step. */
  lemma CriticalPlanSpelledOut(format: string, args: seq<Value>)
    ensures CriticalPlan(format, args) == [
      Emit(CriticalTag, format, args), Wait(100),
      Emit(WarningTag, "The program will exit in:", []),
      Emit(WarningTag, "%v seconds", [Int(5)]), Wait(1000),
      Emit(WarningTag, "%v seconds", [Int(4)]), Wait(1000),
      Emit(WarningTag, "%v seconds", [Int(3)]), Wait(1000),
      Emit(WarningTag, "%v seconds", [Int(2)]), Wait(1000),
      Emit(WarningTag, "%v seconds", [Int(1)]), Wait(1000),
      Emit(InfoTag, "Bye!", []), Wait(1000),
      Terminate(1)]
  {
  }

  /** The pauses and exits among some events, in order. */
  function Timeline(events: seq<Event>): (r: seq<Event>)
    ensures forall e :: e in r ==> e in events && (e.Pause? || e.Exit?)
    ensures forall e :: e in events && (e.Pause? || e.Exit?) ==> e in r
  {
    if events == [] then []
    else (if events[0].Pause? || events[0].Exit? then [events[0]] else []) + Timeline(events[1..])
  }

  /** The timeline of two stretches of events is theirs concatenated. */
  lemma {:induction false} TimelineAppend(a: seq<Event>, b: seq<Event>)
    ensures Timeline(a + b) == Timeline(a) + Timeline(b)
  {
    if a == [] {
      assert a + b == b;
    } else {
      assert (a + b)[1..] == a[1..] + b;
      TimelineAppend(a[1..], b);
    }
  }

  /** The pause or exit a step stands for, if any. */
  function StepMark(s: Step): seq<Event> {
    match s
    case Emit(_, _, _) => []
    case Wait(ms) => [Pause(ms)]
    case Terminate(status) => [Exit(status)]
  }

  /** The pauses and exits a step sequence stands for, in order. */
  function StepTimeline(steps: seq<Step>): seq<Event> {
    if steps == [] then [] else StepMark(steps[0]) + StepTimeline(steps[1..])
  }

  /** The timeline of two step sequences is theirs concatenated. */
  lemma {:induction false} StepTimelineAppend(a: seq<Step>, b: seq<Step>)
    ensures StepTimeline(a + b) == StepTimeline(a) + StepTimeline(b)
  {
    if a == [] {
      assert a + b == b;
    } else {
      assert (a + b)[1..] == a[1..] + b;
      StepTimelineAppend(a[1..], b);
    }
  }

  /** A stretch of console prints and writes holds no pause and no exit. */
  lemma TimelineOfOutput(r: seq<Event>)
    requires forall e :: e in r ==> e.Console? || e.Write?
    ensures Timeline(r) == []
  {
  }

  /** Emitting a line neither pauses nor exits. */
  lemma StepEventsTimeline(s: Step, k: nat, cfg: Config, env: Env)
    ensures Timeline(StepEvents(s, k, cfg, env)) == StepMark(s)
    ensures !cfg.console && cfg.writers == [] ==> StepEvents(s, k, cfg, env) == StepMark(s)
  {
    var r := StepEvents(s, k, cfg, env);
    match s
    case Emit(tag, format, args) =>
      var line := Compose(env.clock(k), tag, format, args, env.sprintf);
      OutEventsShape(cfg, tag, line, env.faults(k));
      assert forall e :: e in r ==> e.Console? || e.Write?;
      TimelineOfOutput(r);
    case Wait(ms) =>
      assert Timeline(r) == [Pause(ms)] + Timeline([]);
    case Terminate(status) =>
      assert Timeline(r) == [Exit(status)] + Timeline([]);
  }

  /** Logging never pauses or exits by itself: the pauses and exits of a run are
      exactly its sleep and terminate steps, in order, whatever the
      configuration and the outside world. */
  lemma {:induction false} RunTimeline(steps: seq<Step>, k: nat, cfg: Config, env: Env)
    ensures Timeline(Run(steps, k, Semantics(cfg, env))) == StepTimeline(steps)
    decreases |steps|
  {
    if steps != [] {
      var m := Semantics(cfg, env);
      StepEventsTimeline(steps[0], k, cfg, env);
      TimelineAppend(m(steps[0], k), Run(steps[1..], k + 1, m));
      RunTimeline(steps[1..], k + 1, cfg, env);
    }
  }

  /** With the console off and no writer, a run does nothing but its pauses and
      its exit. */
  lemma {:induction false} RunWithoutDestinations(steps: seq<Step>, k: nat, cfg: Config, env: Env)
    requires !cfg.console && cfg.writers == []
    ensures Run(steps, k, Semantics(cfg, env)) == StepTimeline(steps)
    decreases |steps|
  {
    if steps != [] {
      StepEventsTimeline(steps[0], k, cfg, env);
      RunWithoutDestinations(steps[1..], k + 1, cfg, env);
    }
  }

  /** `n` pauses of `ms` milliseconds. */
  function Pauses(n: nat, ms: nat): seq<Event> {
    if n == 0 then [] else [Pause(ms)] + Pauses(n - 1, ms)
  }

  /** The countdown pauses one second per round. */
  lemma {:induction false} CountdownTimeline(i: nat)
    ensures StepTimeline(CountdownSteps(i)) == Pauses(i, 1000)
  {
    if i > 0 {
      var head: seq<Step> := [Emit(WarningTag, "%v seconds", [Int(i)]), Wait(1000)];
      assert CountdownSteps(i) == head + CountdownSteps(i - 1);
      StepTimelineAppend(head, CountdownSteps(i - 1));
      assert StepTimeline(head[1..]) == StepMark(head[1]) + StepTimeline(head[2..]);
      assert StepTimeline(head) == [Pause(1000)];
      CountdownTimeline(i - 1);
    }
  }

  /** One more pause goes at the end. */
  lemma {:induction false} PausesAppend(n: nat)
    ensures Pauses(n + 1, 1000) == Pauses(n, 1000) + [Pause(1000)]
  {
    if n > 0 {
      PausesAppend(n - 1);
    }
  }

  /** The pauses and exits of three steps. */
  lemma StepTimelineThree(x: Step, y: Step, z: Step)
    ensures StepTimeline([x, y, z]) == StepMark(x) + StepMark(y) + StepMark(z)
  {
    var s := [x, y, z];
    assert s[1..] == [y, z] && s[1..][1..] == [z] && s[1..][1..][1..] == [];
    assert StepTimeline([z]) == StepMark(z) + StepTimeline([]);
    assert StepTimeline([y, z]) == StepMark(y) + StepTimeline([z]);
  }

  /** The opening pauses 100 ms. */
  lemma OpeningTimeline(format: string, args: seq<Value>)
    ensures StepTimeline(OpeningSteps(format, args)) == [Pause(100)]
  {
    StepTimelineThree(Emit(CriticalTag, format, args), Wait(100), Emit(WarningTag, "The program will exit in:", []));
  }

  /** The closing pauses one second and exits with status 1. */
  lemma ClosingTimeline()
    ensures StepTimeline(ClosingSteps()) == [Pause(1000), Exit(1)]
  {
    StepTimelineThree(Emit(InfoTag, "Bye!", []), Wait(1000), Terminate(1));
  }

  /** The drain sequence of `Critical`: 100 ms, then six one-second pauses, then
      exit status 1. */
  lemma CriticalTimeline(format: string, args: seq<Value>)
    ensures StepTimeline(CriticalPlan(format, args)) == [Pause(100)] + Pauses(6, 1000) + [Exit(1)]
  {
    var opening, countdown, closing := OpeningSteps(format, args), CountdownSteps(Seconds), ClosingSteps();
    StepTimelineAppend(opening + countdown, closing);
    StepTimelineAppend(opening, countdown);
    OpeningTimeline(format, args);
    ClosingTimeline();
    CountdownTimeline(Seconds);
    PausesAppend(Seconds);
    AppendAssociative([Pause(100)] + Pauses(Seconds, 1000), [Pause(1000)], [Exit(1)]);
  }

  /** The last step of `Critical` is the exit. */
  lemma CriticalLastStep(format: string, args: seq<Value>, m: Meaning)
    ensures var plan := CriticalPlan(format, args);
            |plan| == 16 && Run(plan, 0, m) == Run(plan[..15], 0, m) + m(Terminate(1), 15)
  {
    var plan := CriticalPlan(format, args);
    var last: seq<Step> := [Terminate(1)];
    assert plan == plan[..15] + last;
    RunAppend(plan[..15], last, 0, m);
  }

  /** The very last event of `Critical` is the exit with status 1, whatever
      the configuration and the outside world. */
  lemma CriticalEndsWithExit(format: string, args: seq<Value>, cfg: Config, env: Env)
    ensures var r := Run(CriticalPlan(format, args), 0, Semantics(cfg, env));
            |r| > 0 && r[|r| - 1] == Exit(1)
  {
    CriticalLastStep(format, args, Semantics(cfg, env));
    TerminateMeaning(cfg, env, 1, 15);
  }

  /** `Critical` ends the process with status 1 as its very last event, after
      exactly the pauses of the drain sequence and no other exit, whatever the
      configuration; with no destination at all it still pauses and exits. */
  lemma CriticalExits(format: string, args: seq<Value>, cfg: Config, env: Env)
    ensures var r := Run(CriticalPlan(format, args), 0, Semantics(cfg, env));
            |r| > 0 && r[|r| - 1] == Exit(1) &&
            Timeline(r) == [Pause(100)] + Pauses(6, 1000) + [Exit(1)]
    ensures !cfg.console && cfg.writers == [] ==>
            Run(CriticalPlan(format, args), 0, Semantics(cfg, env)) == [Pause(100)] + Pauses(6, 1000) + [Exit(1)]
  {
    var plan := CriticalPlan(format, args);
    CriticalEndsWithExit(format, args, cfg, env);
    RunTimeline(plan, 0, cfg, env);
    CriticalTimeline(format, args);
    if !cfg.console && cfg.writers == [] {
      RunWithoutDestinations(plan, 0, cfg, env);
    }
  }
}
