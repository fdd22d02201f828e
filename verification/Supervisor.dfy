/** The process supervisor of node/internal/engine/subprocess.go. Its critical sections run under one
    lock, so a run is an interleaving of whole sections with exits of children. */
module Supervisor {
  import opened Common

  /** The fields of a supervised process together with the world around it. Children are numbered in the
      order in which they start; `alive` are those neither killed nor exited; `monitors` gives, for each
      child whose monitor has not finished, the generation it was started in; `timers` holds the
      generations of the armed restart timers. */
  datatype State = State(
    cmd: Option<nat>, stopping: bool, generation: nat, lastCommand: seq<string>,
    born: nat, alive: set<nat>, monitors: map<nat, nat>, timers: multiset<nat>)

  const NEW_PROCESS: State := State(None, false, 0, [], 0, {}, map[], multiset{})

  /** `starts` says whether the operating system manages to start the command. */
  datatype Event =
    | Restart(command: seq<string>, starts: bool)
    | Stop
    | Exit(child: nat)
    | Monitor(child: nat)
    | Timer(generation: nat, starts: bool)

  // ---------- the critical sections ----------

  function StartLocked(s: State, command: seq<string>, starts: bool): State {
    if command == [] || !starts then s
    else s.(cmd := Some(s.born), lastCommand := command, born := s.born + 1,
            alive := s.alive + {s.born}, monitors := s.monitors[s.born := s.generation])
  }

  function StopLocked(s: State): State {
    s.(stopping := true, generation := s.generation + 1, cmd := None,
       alive := if s.cmd.Some? then s.alive - {s.cmd.value} else s.alive)
  }

  /** `clears` distinguishes two programs. With false it is the code: stopping is cleared before
      stopLocked sets it again. With true it is cleared afterwards. */
  function RestartLocked(s: State, command: seq<string>, starts: bool, clears: bool): State {
    var stopped := StopLocked(s.(stopping := false, generation := s.generation + 1));
    StartLocked(if clears then stopped.(stopping := false) else stopped, command, starts)
  }

  function MonitorLocked(s: State, child: nat): State
    requires child in s.monitors
  {
    var generation := s.monitors[child];
    var s' := s.(cmd := if s.cmd == Some(child) then None else s.cmd, monitors := s.monitors - {child});
    if s.stopping || generation != s.generation || s.lastCommand == [] then s'
    else s'.(timers := s.timers + multiset{generation})
  }

  function TimerLocked(s: State, generation: nat, starts: bool): State {
    var s' := s.(timers := s.timers - multiset{generation});
    if s.stopping || generation != s.generation || s.cmd.Some? then s'
    else StartLocked(s', s.lastCommand, starts)
  }

  /** A monitor runs once its child is gone, a timer fires once it is armed. */
  predicate Enabled(s: State, e: Event) {
    match e
    case Exit(child) => child in s.alive
    case Monitor(child) => child in s.monitors && child !in s.alive
    case Timer(generation, _) => generation in s.timers
    case _ => true
  }

  function Step(s: State, e: Event, clears: bool): State {
    if !Enabled(s, e) then s else
    match e
    case Restart(command, starts) => RestartLocked(s, command, starts, clears)
    case Stop => StopLocked(s)
    case Exit(child) => s.(alive := s.alive - {child})
    case Monitor(child) => MonitorLocked(s, child)
    case Timer(generation, starts) => TimerLocked(s, generation, starts)
  }

  function Steps(s: State, events: seq<Event>, clears: bool): State {
    if events == [] then s else Step(Steps(s, events[..|events| - 1], clears), events[|events| - 1], clears)
  }

  function Run(events: seq<Event>, clears: bool): State {
    Steps(NEW_PROCESS, events, clears)
  }

  // ---------- safety, for both programs ----------

  ghost predicate Safe(s: State) {
    && (forall c :: c in s.alive ==> s.cmd == Some(c))
    && (s.cmd.Some? ==> s.cmd.value in s.monitors && s.monitors[s.cmd.value] == s.generation)
    && (forall c :: c in s.monitors ==> c < s.born && s.monitors[c] <= s.generation)
    && (forall g :: g in s.timers ==> g <= s.generation)
  }

  lemma StartSafe(s: State, command: seq<string>, starts: bool)
    requires Safe(s) && s.cmd == None
    ensures Safe(StartLocked(s, command, starts))
  {
    var s' := StartLocked(s, command, starts);
    assert forall c :: c in s'.alive ==> c in s.alive || c == s.born;
    assert s'.timers == s.timers;
  }

  lemma StopSafe(s: State)
    requires Safe(s)
    ensures Safe(StopLocked(s)) && StopLocked(s).alive == {}
  {
    var s' := StopLocked(s);
    assert forall c :: c in s'.alive ==> c in s.alive;
    assert s'.alive == {};
  }

  lemma MonitorSafe(s: State, child: nat)
    requires Safe(s) && child in s.monitors && child !in s.alive
    ensures Safe(MonitorLocked(s, child))
  {
    var s' := MonitorLocked(s, child);
    assert forall c :: c in s'.monitors ==> c in s.monitors && s'.monitors[c] == s.monitors[c];
    assert forall g :: g in s'.timers ==> g in s.timers || g == s.monitors[child];
  }

  lemma StepSafe(s: State, e: Event, clears: bool)
    requires Safe(s)
    ensures Safe(Step(s, e, clears))
  {
    if Enabled(s, e) {
      match e
      case Restart(command, starts) =>
        RestartSafe(s, command, starts, clears);
      case Stop => StopSafe(s);
      case Exit(child) =>
        assert forall c :: c in s.alive - {child} ==> c in s.alive;
      case Monitor(child) => MonitorSafe(s, child);
      case Timer(generation, starts) =>
        var s' := s.(timers := s.timers - multiset{generation});
        assert forall g :: g in s'.timers ==> g in s.timers;
        assert Safe(s');
        if s.cmd == None {
          StartSafe(s', s.lastCommand, starts);
        }
    }
  }

  /** The generation moves twice and the old child is gone before the new one starts. */
  lemma RestartSafe(s: State, command: seq<string>, starts: bool, clears: bool)
    requires Safe(s)
    ensures Safe(RestartLocked(s, command, starts, clears))
    ensures command != [] && starts ==> RestartLocked(s, command, starts, clears).alive == {s.born}
  {
    StopSafe(s);
    var stopped := StopLocked(s.(stopping := false, generation := s.generation + 1));
    assert stopped.alive == StopLocked(s).alive && stopped.monitors == s.monitors && stopped.timers == s.timers;
    assert Safe(stopped);
    StartSafe(if clears then stopped.(stopping := false) else stopped, command, starts);
  }

  lemma {:induction false} StepsSafe(s: State, events: seq<Event>, clears: bool)
    requires Safe(s)
    ensures Safe(Steps(s, events, clears))
  {
    if events != [] {
      StepsSafe(s, events[..|events| - 1], clears);
      StepSafe(Steps(s, events[..|events| - 1], clears), events[|events| - 1], clears);
    }
  }

  /** At most one live child, over every interleaving: a child that is neither killed nor exited is the
      current one. */
  lemma AtMostOneChild(events: seq<Event>, clears: bool)
    ensures var s := Run(events, clears);
            |s.alive| <= 1 && forall c :: c in s.alive ==> s.cmd == Some(c)
  {
    StepsSafe(NEW_PROCESS, events, clears);
    var s := Run(events, clears);
    if s.alive != {} {
      var c := Pick(s.alive);
      assert s.alive == {c};
    }
  }

  /** A monitor or a timer of an older generation neither clears, replaces nor starts anything. */
  lemma OldGenerationIsHarmless(events: seq<Event>, e: Event, clears: bool)
    requires var s := Run(events, clears);
             (e.Monitor? && e.child in s.monitors && s.monitors[e.child] < s.generation) ||
             (e.Timer? && e.generation < s.generation)
    ensures var s, s' := Run(events, clears), Step(Run(events, clears), e, clears);
            s'.cmd == s.cmd && s'.alive == s.alive && s'.born == s.born && s'.timers <= s.timers
  {
    hide Steps, Step, Safe;
    StepsSafe(NEW_PROCESS, events, clears);
    OlderIsHarmless(Run(events, clears), e, clears);
  }

  lemma OlderIsHarmless(s: State, e: Event, clears: bool)
    requires Safe(s)
    requires (e.Monitor? && e.child in s.monitors && s.monitors[e.child] < s.generation) ||
             (e.Timer? && e.generation < s.generation)
    ensures var s' := Step(s, e, clears);
            s'.cmd == s.cmd && s'.alive == s.alive && s'.born == s.born && s'.timers <= s.timers
  {
  }

  /** Stopped: nothing runs and no armed timer can act. */
  ghost predicate Quiet(s: State) {
    Safe(s) && s.stopping && s.alive == {} && s.cmd == None
  }

  lemma {:induction false} QuietStays(s: State, events: seq<Event>, clears: bool)
    requires Quiet(s) && forall e :: e in events ==> !e.Restart?
    ensures Quiet(Steps(s, events, clears)) && Steps(s, events, clears).born == s.born
  {
    if events != [] {
      QuietStays(s, events[..|events| - 1], clears);
      StepSafe(Steps(s, events[..|events| - 1], clears), events[|events| - 1], clears);
    }
  }

  lemma {:induction false} StepsCompose(s: State, a: seq<Event>, b: seq<Event>, clears: bool)
    ensures Steps(s, a + b, clears) == Steps(Steps(s, a, clears), b, clears)
  {
    if b == [] {
      assert a + b == a;
    } else {
      StepsCompose(s, a, b[..|b| - 1], clears);
      assert (a + b)[..|a + b| - 1] == a + b[..|b| - 1];
    }
  }

  lemma StepsAppend(s: State, events: seq<Event>, e: Event, clears: bool)
    ensures Steps(s, events + [e], clears) == Step(Steps(s, events, clears), e, clears)
    ensures [] + [e] == [e]
  {
    assert (events + [e])[..|events|] == events;
  }

  /** No resurrection: after a stop no child is started, and none is alive, until the next restart,
      whatever monitors and timers were pending. */
  lemma NoResurrection(before: seq<Event>, after: seq<Event>, clears: bool)
    requires forall e :: e in after ==> !e.Restart?
    ensures var s, s' := Run(before + [Stop], clears), Run(before + [Stop] + after, clears);
            s'.born == s.born && s'.alive == {} && s'.cmd == None
  {
    StepsSafe(NEW_PROCESS, before, clears);
    var s := Run(before, clears);
    assert (before + [Stop])[..|before|] == before;
    StopSafe(s);
    assert Quiet(Run(before + [Stop], clears));
    QuietStays(Run(before + [Stop], clears), after, clears);
    StepsCompose(NEW_PROCESS, before + [Stop], after, clears);
  }

  // ---------- crash recovery ----------

  /** In the code as written `stopping` holds once a restart has been tried, and no timer is ever armed. */
  lemma {:induction false} RecoveryIsNeverArmed(events: seq<Event>)
    ensures var s := Run(events, false);
            s.timers == multiset{} && (s.born > 0 ==> s.stopping) && (s.monitors != map[] ==> s.stopping)
  {
    if events != [] {
      RecoveryIsNeverArmed(events[..|events| - 1]);
    }
  }

  /** Hence only a restart ever starts a child. */
  lemma OnlyRestartStarts(events: seq<Event>, e: Event)
    ensures Step(Run(events, false), e, false).born > Run(events, false).born
            <==> e.Restart? && e.command != [] && e.starts
  {
    RecoveryIsNeverArmed(events);
  }

  function Crash(s: State, child: nat): seq<Event> {
    [Exit(child)] + [Monitor(child)] + [Timer(s.generation, true)]
  }

  lemma CrashPlays(s: State, child: nat, clears: bool)
    requires s.alive == {child} && s.cmd == Some(child) && s.lastCommand != []
    requires child in s.monitors && s.monitors[child] == s.generation && s.timers[s.generation] == 0
    ensures Steps(s, Crash(s, child), clears).alive != {} <==> !s.stopping
  {
    StepsAppend(s, [], Exit(child), clears);
    StepsAppend(s, [Exit(child)], Monitor(child), clears);
    StepsAppend(s, [Exit(child)] + [Monitor(child)], Timer(s.generation, true), clears);
    var s1 := Step(s, Exit(child), clears);
    assert s1 == s.(alive := {});
  }

  /** A started child that crashes is replaced after the delay exactly in the program that clears
      `stopping` after stopLocked. In the code as written the crashed child stays down. */
  lemma CrashRecoveredExactly(before: seq<Event>, command: seq<string>, clears: bool)
    requires command != []
    ensures var child, s := Run(before, clears).born, Run(before + [Restart(command, true)], clears);
            s.alive == {child} && (Steps(s, Crash(s, child), clears).alive != {} <==> clears)
  {
    StepsSafe(NEW_PROCESS, before, clears);
    var s0 := Run(before, clears);
    StepsAppend(NEW_PROCESS, before, Restart(command, true), clears);
    RestartSafe(s0, command, true, clears);
    var s := RestartLocked(s0, command, true, clears);
    if s.generation in s0.timers {
      assert false;
    }
    CrashPlays(s, s0.born, clears);
  }

  // ---------- the operations ----------

  class SupervisedProcess {
    var cmd: Option<nat>
    var stopping: bool
    var generation: nat
    var lastCommand: seq<string>
    // The world: children, their monitors and the timers.
    var born: nat
    var alive: set<nat>
    var monitors: map<nat, nat>
    var timers: multiset<nat>

    ghost function View(): State
      reads this
    {
      State(cmd, stopping, generation, lastCommand, born, alive, monitors, timers)
    }

    constructor ()
      ensures View() == NEW_PROCESS && Safe(View())
    {
      cmd, stopping, generation, lastCommand := None, false, 0, [];
      born, alive, monitors, timers := 0, {}, map[], multiset{};
    }

    method StartProcess(command: seq<string>, starts: bool) returns (ok: bool)
      modifies this
      ensures View() == StartLocked(old(View()), command, starts)
      ensures ok <==> command != [] && starts
    {
      if |command| == 0 || !starts {
        return false;
      }
      var child := born;
      born, alive := born + 1, alive + {child};
      cmd := Some(child);
      lastCommand := command;
      monitors := monitors[child := generation];
      ok := true;
    }

    method StopProcess()
      modifies this
      ensures View() == StopLocked(old(View()))
    {
      stopping := true;
      generation := generation + 1;
      if cmd.Some? {
        alive := alive - {cmd.value};
      }
      cmd := None;
    }

    /** restart, in the order of the code. */
    method RestartProcess(command: seq<string>, starts: bool) returns (ok: bool)
      modifies this
      ensures View() == Step(old(View()), Restart(command, starts), false)
      ensures old(Safe(View())) ==> Safe(View())
    {
      ghost var before := View();
      stopping := false;
      generation := generation + 1;
      StopProcess();
      ok := StartProcess(command, starts);
      if Safe(before) {
        StepSafe(before, Restart(command, starts), false);
      }
    }

    method Shutdown()
      modifies this
      ensures View() == Step(old(View()), Stop, false)
      ensures old(Safe(View())) ==> Safe(View())
    {
      StopProcess();
    }

    /** monitorProcess once Wait has returned. */
    method MonitorProcess(child: nat)
      requires child in monitors && child !in alive
      modifies this
      ensures View() == Step(old(View()), Monitor(child), false)
      ensures old(Safe(View())) ==> Safe(View())
    {
      ghost var before := View();
      var started := monitors[child];
      monitors := monitors - {child};
      if cmd == Some(child) {
        cmd := None;
      }
      if !(stopping || started != generation) && |lastCommand| != 0 {
        timers := timers + multiset{started};
      }
      if Safe(before) {
        StepSafe(before, Monitor(child), false);
      }
    }

    /** The function armed by time.AfterFunc. */
    method FireTimer(armed: nat, starts: bool)
      requires armed in timers
      modifies this
      ensures View() == Step(old(View()), Timer(armed, starts), false)
      ensures old(Safe(View())) ==> Safe(View())
    {
      ghost var before := View();
      timers := timers - multiset{armed};
      if !(stopping || armed != generation || cmd.Some?) {
        var _ := StartProcess(lastCommand, starts);
      }
      if Safe(before) {
        StepSafe(before, Timer(armed, starts), false);
      }
    }
  }
}
