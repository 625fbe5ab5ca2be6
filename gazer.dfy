/**
 * The dispatcher of pkg/gazer: filters the notifier's update events by the
 * watched patterns and a 10 ms guard, counts them, picks the first configured
 * command that applies, and runs it, killing the previous restartable run first.
 */
module Gazer {
  import opened Wrappers
  import opened Probes
  import Notify

  /** Events whose file changed less than 10 ms after the last dispatch are ignored. */
  const IgnorePeriod: int := 10 * Notify.Millisecond

  /** The Go counter is a uint64. */
  const CounterModulus: int := 0x1_0000_0000_0000_0000
  newtype u64 = x: int | 0 <= x < 0x1_0000_0000_0000_0000

  /** `g.counter++` on a uint64: wraps to 0 after 2^64 - 1. */
  function Increment(c: u64): (next: u64)
    ensures c as int + 1 < CounterModulus ==> next as int == c as int + 1
    ensures c as int + 1 == CounterModulus ==> next == 0
  {
    ((c as int + 1) % CounterModulus) as u64
  }

  /** The fields of one configured command that the dispatcher reads. */
  datatype Rule = Rule(ext: string, re: string, run: string)

  /** The collaborators the dispatcher consults. */
  datatype Collaborators = Collaborators(
    globMatch: (string, string) -> bool,    // fs.GlobMatch(pattern, path)
    matches: (Rule, string) -> bool,        // the rule's Match(path)
    render: (string, string) -> string      // render(run, path)
  )

  /** A started command; `serial` stands for the identity of the fresh *exec.Cmd. */
  datatype Process = Process(commandLine: string, serial: nat)

  /** What the dispatcher does to processes, in order. */
  datatype Action =
    | Kill(process: Process)
    | Start(process: Process, timeout: int, restartable: bool)

  /** What the event loop receives: a notifier event with the file's modification time and the clock, or an interrupt. */
  datatype Incoming =
    | Update(event: Notify.Event, modifiedTime: int, now: int)
    | Interrupt

  // ---------------------------------------------------------------------------
  // Pattern filter (matchAny)
  // ---------------------------------------------------------------------------

  predicate AnyMatch(watchFiles: seq<string>, name: string, globMatch: (string, string) -> bool)
  {
    exists i :: 0 <= i < |watchFiles| && globMatch(watchFiles[i], name)
  }

  /** matchAny: scans the patterns in order and stops at the first that matches. */
  method MatchAny(watchFiles: seq<string>, name: string, globMatch: (string, string) -> bool) returns (result: bool)
    ensures result <==> AnyMatch(watchFiles, name, globMatch)
  {
    result := false;
    for i := 0 to |watchFiles|
      invariant !result
      invariant forall j :: 0 <= j < i ==> !globMatch(watchFiles[j], name)
    {
      if globMatch(watchFiles[i], name) {
        result := true;
        break;
      }
    }
  }

  // ---------------------------------------------------------------------------
  // Command selection (getAppropriateCommand)
  // ---------------------------------------------------------------------------

  /** A rule applies when it has a command, an extension or pattern, and it matches the path. */
  predicate Applies(rule: Rule, path: string, c: Collaborators)
  {
    rule.run != "" && (rule.ext != "" || rule.re != "") && c.matches(rule, path)
  }

  /** The rendered command of the first applicable rule, or "" when none applies. */
  function SelectCommand(rules: seq<Rule>, path: string, c: Collaborators): string
  {
    if rules == [] then ""
    else if Applies(rules[0], path, c) then c.render(rules[0].run, path)
    else SelectCommand(rules[1..], path, c)
  }

  /** When no rule applies, no command is selected. */
  lemma {:induction false} SelectCommandNone(rules: seq<Rule>, path: string, c: Collaborators)
    requires forall i :: 0 <= i < |rules| ==> !Applies(rules[i], path, c)
    ensures SelectCommand(rules, path, c) == ""
    decreases |rules|
  {
    if rules != [] {
      assert !Applies(rules[0], path, c);
      SelectCommandNone(rules[1..], path, c);
    }
  }

  /** When rule `k` is the first that applies, its rendered run string is selected. */
  lemma {:induction false} SelectCommandFirst(rules: seq<Rule>, path: string, c: Collaborators, k: nat)
    requires k < |rules| && Applies(rules[k], path, c)
    requires forall j :: 0 <= j < k ==> !Applies(rules[j], path, c)
    ensures SelectCommand(rules, path, c) == c.render(rules[k].run, path)
    decreases k
  {
    if k > 0 {
      assert !Applies(rules[0], path, c);
      assert forall j :: 0 <= j < k - 1 ==> rules[1..][j] == rules[j + 1];
      SelectCommandFirst(rules[1..], path, c, k - 1);
    }
  }

  /** getAppropriateCommand: a loop that skips incomplete rules and breaks at the first match. */
  method GetAppropriateCommand(filePath: string, rules: seq<Rule>, c: Collaborators) returns (result: string)
    ensures result == SelectCommand(rules, filePath, c)
  {
    result := "";
    for i := 0 to |rules|
      invariant result == ""
      invariant SelectCommand(rules, filePath, c) == SelectCommand(rules[i..], filePath, c)
    {
      var rule := rules[i];
      assert rules[i..][0] == rule && rules[i..][1..] == rules[i + 1..];
      if rule.run == "" || (rule.ext == "" && rule.re == "") {
        continue;
      }
      if c.matches(rule, filePath) {
        result := c.render(rule.run, filePath);
        break;
      }
    }
  }

  // ---------------------------------------------------------------------------
  // One iteration of repeatRunAndWait
  // ---------------------------------------------------------------------------

  /** The loop's state: the Gazer's counter and the loop's locals, plus the number of commands created. */
  datatype DispatchState = DispatchState(counter: u64, lastExecutionTime: int, ongoing: Option<Process>, started: nat)

  datatype StepResult = StepResult(state: DispatchState, actions: seq<Action>)

  /** An event passes the filters when a pattern matches and the file changed 10 ms after the last dispatch. */
  predicate Passes(s: DispatchState, name: string, modifiedTime: int, patterns: seq<string>, c: Collaborators)
  {
    AnyMatch(patterns, name, c.globMatch) && modifiedTime - s.lastExecutionTime >= IgnorePeriod
  }

  /** The dispatcher's handling of one update event. */
  function Step(s: DispatchState, name: string, modifiedTime: int, now: int, patterns: seq<string>,
                rules: seq<Rule>, c: Collaborators, timeout: int, restart: bool): StepResult
  {
    if !AnyMatch(patterns, name, c.globMatch) then StepResult(s, [])
    else if modifiedTime - s.lastExecutionTime < IgnorePeriod then StepResult(s, [])
    else
      var counter := Increment(s.counter);
      var command := SelectCommand(rules, name, c);
      if command == "" then StepResult(s.(counter := counter), [])
      else
        var kill := if s.ongoing.Some? then [Kill(s.ongoing.value)] else [];
        var p := Process(command, s.started);
        var ongoing := if restart then Some(p) else None;
        StepResult(DispatchState(counter, now, ongoing, s.started + 1), kill + [Start(p, timeout, restart)])
  }

  /**
   * What one step does: an event that fails a filter changes nothing; every event
   * that passes is counted, whether or not a command is found; a command starts
   * exactly when one is found, after a kill of the tracked process and nothing
   * else, and only then does the shared dispatch time move to `now`; the new
   * command is tracked in restart mode and nothing is tracked otherwise.
   */
  lemma StepSpec(s: DispatchState, name: string, modifiedTime: int, now: int, patterns: seq<string>,
                 rules: seq<Rule>, c: Collaborators, timeout: int, restart: bool)
    ensures var r := Step(s, name, modifiedTime, now, patterns, rules, c, timeout, restart);
            !Passes(s, name, modifiedTime, patterns, c) ==> r == StepResult(s, [])
    ensures var r := Step(s, name, modifiedTime, now, patterns, rules, c, timeout, restart);
            Passes(s, name, modifiedTime, patterns, c) ==> r.state.counter == Increment(s.counter)
    ensures var r := Step(s, name, modifiedTime, now, patterns, rules, c, timeout, restart);
            r.actions != [] <==> Passes(s, name, modifiedTime, patterns, c) && SelectCommand(rules, name, c) != ""
    ensures var r := Step(s, name, modifiedTime, now, patterns, rules, c, timeout, restart);
            r.state.lastExecutionTime == if r.actions == [] then s.lastExecutionTime else now
    ensures var r := Step(s, name, modifiedTime, now, patterns, rules, c, timeout, restart);
            r.actions != [] ==>
              var p := Process(SelectCommand(rules, name, c), s.started);
              r.actions[|r.actions| - 1] == Start(p, timeout, restart) &&
              r.actions[..|r.actions| - 1] == (if s.ongoing.Some? then [Kill(s.ongoing.value)] else []) &&
              r.state.ongoing == (if restart then Some(p) else None)
    ensures var r := Step(s, name, modifiedTime, now, patterns, rules, c, timeout, restart);
            r.actions == [] ==> r.state.ongoing == s.ongoing
  {
  }

  /** The loop over a finite stretch of input: one step per update, stopping at the first interrupt. */
  function Run(s: DispatchState, incoming: seq<Incoming>, patterns: seq<string>, rules: seq<Rule>,
               c: Collaborators, timeout: int, restart: bool): StepResult
    decreases |incoming|
  {
    if incoming == [] then StepResult(s, [])
    else
      match incoming[0]
      case Interrupt => StepResult(s, [])
      case Update(event, modifiedTime, now) =>
        var first := Step(s, event.name, modifiedTime, now, patterns, rules, c, timeout, restart);
        var rest := Run(first.state, incoming[1..], patterns, rules, c, timeout, restart);
        StepResult(rest.state, first.actions + rest.actions)
  }

  /** Run from position `i` of the input: stop at an interrupt, else one step and the rest. */
  lemma RunFrom(s: DispatchState, incoming: seq<Incoming>, i: nat, patterns: seq<string>, rules: seq<Rule>,
                c: Collaborators, timeout: int, restart: bool)
    requires i < |incoming|
    ensures incoming[i].Interrupt? ==> Run(s, incoming[i..], patterns, rules, c, timeout, restart) == StepResult(s, [])
    ensures incoming[i].Update? ==>
              var first := Step(s, incoming[i].event.name, incoming[i].modifiedTime, incoming[i].now,
                                patterns, rules, c, timeout, restart);
              var rest := Run(first.state, incoming[i + 1..], patterns, rules, c, timeout, restart);
              Run(s, incoming[i..], patterns, rules, c, timeout, restart) == StepResult(rest.state, first.actions + rest.actions)
  {
    assert incoming[i..][0] == incoming[i] && incoming[i..][1..] == incoming[i + 1..];
  }

  /**
   * The loop's bookkeeping over one input item: when `outcome` is what is done
   * so far followed by the run from position `i`, an interrupt ends it there,
   * and an update moves one step's actions to what is done.
   */
  lemma RunAdvance(s: DispatchState, incoming: seq<Incoming>, i: nat, done: seq<Action>, outcome: StepResult,
                   patterns: seq<string>, rules: seq<Rule>, c: Collaborators, timeout: int, restart: bool)
    requires i < |incoming|
    requires var rest := Run(s, incoming[i..], patterns, rules, c, timeout, restart);
             outcome == StepResult(rest.state, done + rest.actions)
    ensures incoming[i].Interrupt? ==> outcome == StepResult(s, done)
    ensures incoming[i].Update? ==>
              var step := Step(s, incoming[i].event.name, incoming[i].modifiedTime, incoming[i].now,
                               patterns, rules, c, timeout, restart);
              var rest := Run(step.state, incoming[i + 1..], patterns, rules, c, timeout, restart);
              outcome == StepResult(rest.state, (done + step.actions) + rest.actions)
  {
    RunFrom(s, incoming, i, patterns, rules, c, timeout, restart);
    if incoming[i].Interrupt? {
      assert done + [] == done;
    } else {
      var step := Step(s, incoming[i].event.name, incoming[i].modifiedTime, incoming[i].now,
                       patterns, rules, c, timeout, restart);
      var rest := Run(step.state, incoming[i + 1..], patterns, rules, c, timeout, restart);
      assert done + (step.actions + rest.actions) == (done + step.actions) + rest.actions;
    }
  }

  /** Nothing that arrives after an interrupt is dispatched. */
  lemma {:induction false} RunStopsAtInterrupt(s: DispatchState, before: seq<Incoming>, after: seq<Incoming>,
                                               patterns: seq<string>, rules: seq<Rule>, c: Collaborators,
                                               timeout: int, restart: bool)
    ensures Run(s, before + [Interrupt] + after, patterns, rules, c, timeout, restart) ==
            Run(s, before, patterns, rules, c, timeout, restart)
    decreases |before|
  {
    var all := before + [Interrupt] + after;
    if before == [] {
      assert all[0] == Interrupt;
    } else {
      assert all[0] == before[0];
      assert all[1..] == before[1..] + [Interrupt] + after;
      match before[0]
      case Interrupt =>
      case Update(event, modifiedTime, now) =>
        var first := Step(s, event.name, modifiedTime, now, patterns, rules, c, timeout, restart);
        RunStopsAtInterrupt(first.state, before[1..], after, patterns, rules, c, timeout, restart);
    }
  }

  /** While the counter does not wrap, it never decreases and rises by at most one per event. */
  lemma {:induction false} RunCounterBounded(s: DispatchState, incoming: seq<Incoming>, patterns: seq<string>,
                                             rules: seq<Rule>, c: Collaborators, timeout: int, restart: bool)
    requires s.counter as int + |incoming| < CounterModulus
    ensures var r := Run(s, incoming, patterns, rules, c, timeout, restart);
            s.counter <= r.state.counter && r.state.counter as int <= s.counter as int + |incoming|
    decreases |incoming|
  {
    if incoming != [] {
      match incoming[0]
      case Interrupt =>
      case Update(event, modifiedTime, now) =>
        var first := Step(s, event.name, modifiedTime, now, patterns, rules, c, timeout, restart);
        assert first.state.counter as int <= s.counter as int + 1;
        RunCounterBounded(first.state, incoming[1..], patterns, rules, c, timeout, restart);
    }
  }

  // ---------------------------------------------------------------------------
  // At most one restartable process is alive
  // ---------------------------------------------------------------------------

  /** The processes a tracked slot holds. */
  function Tracked(ongoing: Option<Process>): set<Process>
  {
    if ongoing.Some? then {ongoing.value} else {}
  }

  /**
   * The restartable processes still alive after some actions, if none of them
   * ends by itself: a restartable start adds one, a kill removes one. A blocking
   * run finishes before the loop goes on, so it never stays alive.
   */
  function LiveAfter(live: set<Process>, actions: seq<Action>): set<Process>
    decreases |actions|
  {
    if actions == [] then live else LiveAfter(Apply(live, actions[0]), actions[1..])
  }

  function Apply(live: set<Process>, action: Action): set<Process>
  {
    match action
    case Kill(p) => live - {p}
    case Start(p, _, restartable) => if restartable then live + {p} else live
  }

  lemma {:induction false} LiveAfterConcat(live: set<Process>, xs: seq<Action>, ys: seq<Action>)
    ensures LiveAfter(live, xs + ys) == LiveAfter(LiveAfter(live, xs), ys)
    decreases |xs|
  {
    if xs == [] {
      assert xs + ys == ys;
    } else {
      assert (xs + ys)[0] == xs[0] && (xs + ys)[1..] == xs[1..] + ys;
      LiveAfterConcat(Apply(live, xs[0]), xs[1..], ys);
    }
  }

  /** Killing the tracked process and then starting one leaves only what the start adds. */
  lemma KillThenStart(o: Process, start: Action)
    requires start.Start?
    ensures LiveAfter({o}, [Kill(o), start]) == Apply({}, start)
    ensures forall k :: 0 <= k <= 2 ==> |LiveAfter({o}, [Kill(o), start][..k])| <= 1
  {
    var acts := [Kill(o), start];
    assert acts[..0] == [] && acts[..1] == [Kill(o)] && acts[..2] == acts;
    assert acts[1..] == [start] && [Kill(o)][1..] == [] && [start][1..] == [];
    assert Apply({o}, Kill(o)) == {};
    assert LiveAfter({o}, acts) == LiveAfter({}, [start]) == LiveAfter(Apply({}, start), []);
  }

  /** Starting a process with nothing tracked leaves only what the start adds. */
  lemma StartAlone(start: Action)
    requires start.Start?
    ensures LiveAfter({}, [start]) == Apply({}, start)
    ensures forall k :: 0 <= k <= 1 ==> |LiveAfter({}, [start][..k])| <= 1
  {
    assert [start][..0] == [] && [start][..1] == [start] && [start][1..] == [];
  }

  /** Within one step the tracked process is killed before the new one starts. */
  lemma StepKeepsOneLive(s: DispatchState, name: string, modifiedTime: int, now: int, patterns: seq<string>,
                         rules: seq<Rule>, c: Collaborators, timeout: int, restart: bool)
    ensures var r := Step(s, name, modifiedTime, now, patterns, rules, c, timeout, restart);
            LiveAfter(Tracked(s.ongoing), r.actions) == Tracked(r.state.ongoing) &&
            forall k :: 0 <= k <= |r.actions| ==> |LiveAfter(Tracked(s.ongoing), r.actions[..k])| <= 1
  {
    var r := Step(s, name, modifiedTime, now, patterns, rules, c, timeout, restart);
    StepSpec(s, name, modifiedTime, now, patterns, rules, c, timeout, restart);
    if r.actions == [] {
      assert forall k :: 0 <= k <= |r.actions| ==> r.actions[..k] == [];
    } else {
      var start := Start(Process(SelectCommand(rules, name, c), s.started), timeout, restart);
      if s.ongoing.Some? {
        assert r.actions == [Kill(s.ongoing.value), start];
        KillThenStart(s.ongoing.value, start);
      } else {
        assert r.actions == [start];
        StartAlone(start);
      }
    }
  }

  /**
   * Over any run, the restartable processes left alive are exactly the tracked
   * one, and at no point between actions are two of them alive.
   */
  lemma {:induction false} RunKeepsOneLive(s: DispatchState, incoming: seq<Incoming>, patterns: seq<string>,
                                           rules: seq<Rule>, c: Collaborators, timeout: int, restart: bool)
    ensures var r := Run(s, incoming, patterns, rules, c, timeout, restart);
            LiveAfter(Tracked(s.ongoing), r.actions) == Tracked(r.state.ongoing) &&
            forall k :: 0 <= k <= |r.actions| ==> |LiveAfter(Tracked(s.ongoing), r.actions[..k])| <= 1
    decreases |incoming|
  {
    var r := Run(s, incoming, patterns, rules, c, timeout, restart);
    if incoming == [] || incoming[0].Interrupt? {
      assert r.actions == [];
      assert forall k :: 0 <= k <= |r.actions| ==> r.actions[..k] == [];
    } else {
      var Update(event, modifiedTime, now) := incoming[0];
      var first := Step(s, event.name, modifiedTime, now, patterns, rules, c, timeout, restart);
      var rest := Run(first.state, incoming[1..], patterns, rules, c, timeout, restart);
      StepKeepsOneLive(s, event.name, modifiedTime, now, patterns, rules, c, timeout, restart);
      RunKeepsOneLive(first.state, incoming[1..], patterns, rules, c, timeout, restart);
      var live := Tracked(s.ongoing);
      var a, b := first.actions, rest.actions;
      assert r.actions == a + b;
      LiveAfterConcat(live, a, b);
      forall k | 0 <= k <= |a + b|
        ensures |LiveAfter(live, (a + b)[..k])| <= 1
      {
        if k <= |a| {
          assert (a + b)[..k] == a[..k];
        } else {
          assert (a + b)[..k] == a + b[..k - |a|];
          LiveAfterConcat(live, a, b[..k - |a|]);
        }
      }
    }
  }

  /** Without restart mode nothing is ever tracked, so nothing is ever killed. */
  lemma {:induction false} RunBlockingNeverKills(s: DispatchState, incoming: seq<Incoming>, patterns: seq<string>,
                                                 rules: seq<Rule>, c: Collaborators, timeout: int)
    requires s.ongoing == None
    ensures var r := Run(s, incoming, patterns, rules, c, timeout, false);
            r.state.ongoing == None && forall i :: 0 <= i < |r.actions| ==> !r.actions[i].Kill?
    decreases |incoming|
  {
    if incoming != [] && incoming[0].Update? {
      var Update(event, modifiedTime, now) := incoming[0];
      var first := Step(s, event.name, modifiedTime, now, patterns, rules, c, timeout, false);
      RunBlockingNeverKills(first.state, incoming[1..], patterns, rules, c, timeout);
      var rest := Run(first.state, incoming[1..], patterns, rules, c, timeout, false);
      assert forall i :: 0 <= i < |first.actions| ==> !first.actions[i].Kill?;
      assert forall i :: |first.actions| <= i < |first.actions + rest.actions| ==>
               (first.actions + rest.actions)[i] == rest.actions[i - |first.actions|];
    }
  }

  /**
   * The body of repeatRunAndWait's loop for one update event, over the Gazer's
   * counter and the loop's locals; `actions` are the process actions it takes.
   */
  method DispatchUpdate(patterns: seq<string>, rules: seq<Rule>, c: Collaborators, timeout: int, restart: bool,
                        counter: u64, lastExecutionTime: int, ongoingCommand: Option<Process>, started: nat,
                        name: string, modifiedTime: int, now: int)
    returns (counter': u64, lastExecutionTime': int, ongoingCommand': Option<Process>, started': nat, actions: seq<Action>)
    ensures Step(DispatchState(counter, lastExecutionTime, ongoingCommand, started), name, modifiedTime, now,
                 patterns, rules, c, timeout, restart)
            == StepResult(DispatchState(counter', lastExecutionTime', ongoingCommand', started'), actions)
  {
    counter', lastExecutionTime', ongoingCommand', started', actions := counter, lastExecutionTime, ongoingCommand, started, [];
    var matched := MatchAny(patterns, name, c.globMatch);
    if !matched {
      return;
    }
    if modifiedTime - lastExecutionTime < IgnorePeriod {
      return;
    }
    counter' := Increment(counter);
    var commandString := GetAppropriateCommand(name, rules, c);
    if commandString == "" {
      return;
    }
    if ongoingCommand'.Some? {
      actions := actions + [Kill(ongoingCommand'.value)];
      ongoingCommand' := None;
    }
    var cmd := Process(commandString, started);
    started' := started + 1;
    lastExecutionTime' := now;
    if !restart {
      actions := actions + [Start(cmd, timeout, false)];
    } else {
      ongoingCommand' := Some(cmd);
      actions := actions + [Start(cmd, timeout, true)];
    }
  }

  // ---------------------------------------------------------------------------
  // The gazer
  // ---------------------------------------------------------------------------

  /** A Gazer; `notifyCloses` counts the calls it makes to the notifier's Close. */
  class Gazer {
    var patterns: seq<string>
    var notify: Notify.Notifier?
    var isClosed: bool
    var counter: u64
    ghost var notifyCloses: nat

    /** The notifier is closed through this gazer at most once, exactly when the flag is set. */
    ghost predicate Valid()
      reads this
    {
      notifyCloses <= 1 && (isClosed <==> notifyCloses == 1)
    }

    /**
     * New: cleans every pattern, in order, and creates the notifier over the
     * cleaned patterns, keeping nil when that fails.
     */
    constructor (rawPatterns: seq<string>, maxWatchDirs: nat, watcherOk: bool, fs: FileSystem, paths: PathLib)
      ensures Valid() && !isClosed && counter == 0
      ensures |patterns| == |rawPatterns|
      ensures forall i :: 0 <= i < |rawPatterns| ==> patterns[i] == paths.clean(rawPatterns[i])
      ensures notify != null ==> fresh(notify) && notify.Valid() && !notify.isClosed
      ensures notify == null <==>
                !watcherOk || |Notify.FindDirsResult(patterns, maxWatchDirs, fs, paths)| > maxWatchDirs
    {
      var cleanPatterns := new string[|rawPatterns|];
      for i := 0 to |rawPatterns|
        invariant forall j :: 0 <= j < i ==> cleanPatterns[j] == paths.clean(rawPatterns[j])
      {
        cleanPatterns[i] := paths.clean(rawPatterns[i]);
      }
      var created := Notify.Notifier.New(cleanPatterns[..], maxWatchDirs, watcherOk, fs, paths);
      patterns := cleanPatterns[..];
      notify := if created.Success? then created.value else null;
      isClosed := false;
      counter := 0;
      notifyCloses := 0;
    }

    /** Close: closes the notifier the first time only. */
    method Close()
      requires Valid()
      requires notify != null && notify.Valid()
      modifies this`isClosed, this`notifyCloses, notify`isClosed, notify`watcherCloses
      ensures Valid() && isClosed
      ensures notifyCloses == if old(isClosed) then old(notifyCloses) else old(notifyCloses) + 1
      ensures old(isClosed) ==> unchanged(notify)
      ensures notify.Valid() && (!old(isClosed) ==> notify.isClosed)
    {
      if isClosed {
        return;
      }
      notify.Close();
      isClosed := true;
      notifyCloses := notifyCloses + 1;
    }

    /** Counter: the number of events that passed the filters, modulo 2^64. */
    method Counter() returns (c: u64)
      ensures c == counter
    {
      c := counter;
    }

    /**
     * repeatRunAndWait over a finite stretch of its input, from a fresh start of
     * the loop: returns the process actions it takes and leaves the counter where
     * Run says.
     */
    method RepeatRunAndWait(incoming: seq<Incoming>, rules: seq<Rule>, c: Collaborators, timeout: int, restart: bool)
      returns (actions: seq<Action>)
      requires notify != null
      modifies this`counter
      ensures var r := Run(DispatchState(old(counter), 0, None, 0), incoming, patterns, rules, c, timeout, restart);
              counter == r.state.counter && actions == r.actions
    {
      var lastExecutionTime := 0;
      var ongoingCommand: Option<Process> := None;
      var started: nat := 0;
      actions := [];
      ghost var outcome := Run(DispatchState(counter, 0, None, 0), incoming, patterns, rules, c, timeout, restart);
      var i := 0;
      while i < |incoming|
        invariant i <= |incoming|
        invariant var rest := Run(DispatchState(counter, lastExecutionTime, ongoingCommand, started),
                                  incoming[i..], patterns, rules, c, timeout, restart);
                  outcome == StepResult(rest.state, actions + rest.actions)
      {
        ghost var here := DispatchState(counter, lastExecutionTime, ongoingCommand, started);
        RunAdvance(here, incoming, i, actions, outcome, patterns, rules, c, timeout, restart);
        var item := incoming[i];
        i := i + 1;
        match item
        case Interrupt =>
          return;
        case Update(event, modifiedTime, now) =>
          var stepActions;
          counter, lastExecutionTime, ongoingCommand, started, stepActions :=
            DispatchUpdate(patterns, rules, c, timeout, restart, counter, lastExecutionTime, ongoingCommand, started,
                           event.name, modifiedTime, now);
          actions := actions + stepActions;
      }
      assert incoming[i..] == [];
    }
  }
}
