/** The engine manager of node/internal/engine/engine.go: a configuration comes in, its enabled inbounds are
    grouped by engine key, and engines, outbound processes and the persisted file are brought in line with it. */
module Reconcile {
  import opened Common
  import opened Configs
  import opened Groups
  import opened Engines
  import Outbounds
  import XrayAccounts

  /** The file on disk. */
  datatype File = Missing | Unreadable | Holding(config: Config)

  /** Writing truncates the file before it writes, so a failure may leave anything. */
  datatype Save = Saves | Breaks(left: File)

  /** What an update meets: the certificates, the outbound tags at which no process starts, what the engines meet,
      and the file. */
  datatype Environment = Environment(certificatesOk: bool, outboundFails: set<string>, engines: Conditions, save: Save)

  const GOOD: Environment :=
    Environment(true, {}, Conditions(XrayAccounts.Environment({}, true), {}, {}), Saves)

  /** What an update works on. */
  datatype State = State(fleet: Fleet, outbounds: Outbounds.State)

  const FRESH: State := State(NO_ENGINES, Outbounds.NEW_MANAGER)

  function JobOf(config: Config, now: int, env: Environment): Job {
    Job(Grouped(config, now), config.settings, env.engines)
  }

  /** What is checked before any engine or process is touched. */
  predicate Admitted(config: Config, env: Environment) {
    "" !in Keys(config.inbounds) && env.certificatesOk
  }

  /** An update as far as saving, and whether it gets that far. */
  ghost function Applied(s: State, config: Config, now: int, env: Environment, moves: seq<Move>): (State, bool) {
    if !Admitted(config, env) then (s, false) else
      var (outbounds, synced) := Outbounds.Sync(s.outbounds, config.settings.outbounds, env.outboundFails);
      if !synced then (State(s.fleet, outbounds), false) else
        var (fleet, ok) := Play(s.fleet, moves, JobOf(config, now, env));
        (State(if ok then DropStale(fleet, Keys(config.inbounds)) else fleet, outbounds), ok)
  }

  // ---------- runs of one manager ----------

  /** A restore is an update with the configuration in the file. Between updates children settle and crash. */
  datatype Call =
    | UpdateCall(config: Config, now: int, env: Environment, moves: seq<Move>)
    | SettleCall(key: string)
    | ExitCall(key: string)

  ghost function Next(s: State, call: Call): State {
    match call
    case UpdateCall(config, now, env, moves) =>
      if Schedule(moves, Keys(config.inbounds)) then Applied(s, config, now, env, moves).0 else s
    case SettleCall(key) => s.(fleet := Settle(s.fleet, key))
    case ExitCall(key) => s.(fleet := Exit(s.fleet, key))
  }

  /** The manager after a run. */
  ghost function After(calls: seq<Call>): State {
    if calls == [] then FRESH else Next(After(calls[..|calls| - 1]), calls[|calls| - 1])
  }

  ghost predicate SoundState(s: State) {
    && Sound(s.fleet) && Exclusive(s.fleet) && Engines.Tracked(s.fleet)
    && Outbounds.Tracked(s.outbounds) && Outbounds.AllOfStartable(s.outbounds)
  }

  lemma JobPosed(config: Config, now: int, env: Environment)
    requires "" !in Keys(config.inbounds)
    ensures Posed(JobOf(config, now, env)) && JobOf(config, now, env).groups.Keys == Keys(config.inbounds)
    ensures forall key :: key in Keys(config.inbounds) ==>
              JobOf(config, now, env).groups[key] == GroupFor(config, now, key)
  {
    GroupsAreKeyed(config.inbounds, Active(config.accounts, now));
  }

  lemma AppliedSound(s: State, config: Config, now: int, env: Environment, moves: seq<Move>)
    requires SoundState(s)
    ensures SoundState(Applied(s, config, now, env, moves).0)
  {
    hide Sound, Exclusive, Engines.Tracked, Outbounds.Tracked, Outbounds.AllOfStartable, Play, DropStale, Posed, JobOf,
         Outbounds.Sync;
    if Admitted(config, env) {
      var job := JobOf(config, now, env);
      JobPosed(config, now, env);
      Outbounds.SyncTracked(s.outbounds, config.settings.outbounds, env.outboundFails);
      Outbounds.SyncOfStartable(s.outbounds, config.settings.outbounds, env.outboundFails);
      PlaySound(s.fleet, moves, job);
      PlayExclusive(s.fleet, moves, job);
      PlayTracked(s.fleet, moves, job);
      var f := Play(s.fleet, moves, job).0;
      DropSound(f, Keys(config.inbounds));
      DropTracked(f, Keys(config.inbounds));
    }
  }

  lemma NextSound(s: State, call: Call)
    requires SoundState(s)
    ensures SoundState(Next(s, call))
  {
    hide Sound, Exclusive, Engines.Tracked, Applied, Settle, Exit;
    match call
    case UpdateCall(config, now, env, moves) => AppliedSound(s, config, now, env, moves);
    case SettleCall(key) =>
      SettleSoundAll(s.fleet, key);
      SettleTracked(s.fleet, key);
      SoundKey(s.fleet, key);
      SettleExclusive(s.fleet, key);
    case ExitCall(key) => ExitKeeps(s.fleet, key);
  }

  /** Over every run no engine and no process is lost, no two engines hold the same socket, and every engine is of a
      kind that is possible for its key. */
  lemma {:induction false} AlwaysSound(calls: seq<Call>)
    ensures SoundState(After(calls))
  {
    hide SoundState, Next;
    if calls != [] {
      AlwaysSound(calls[..|calls| - 1]);
      NextSound(After(calls[..|calls| - 1]), calls[|calls| - 1]);
    } else {
      FreshSound();
    }
  }

  lemma FreshSound()
    ensures SoundState(FRESH)
  {
  }

  // ---------- when an update applies ----------

  ghost predicate AppliesAlways(s: State, config: Config, now: int, env: Environment) {
    forall moves :: Schedule(moves, Keys(config.inbounds)) ==> Applied(s, config, now, env, moves).1
  }

  ghost predicate AppliesSometimes(s: State, config: Config, now: int, env: Environment) {
    exists moves :: Schedule(moves, Keys(config.inbounds)) && Applied(s, config, now, env, moves).1
  }

  predicate OutboundsSucceed(s: State, config: Config, env: Environment) {
    Outbounds.AllSucceed(s.outbounds.processes, Outbounds.Desired(config.settings.outbounds), env.outboundFails)
  }

  /** What can be checked before an update that is to succeed in every schedule. */
  ghost predicate MustApply(s: State, config: Config, now: int, env: Environment) {
    Admitted(config, env) && OutboundsSucceed(s, config, env) && EveryOrder(s.fleet, JobOf(config, now, env))
  }

  /** The same for some schedule. */
  predicate MayApply(s: State, config: Config, now: int, env: Environment) {
    Admitted(config, env) && OutboundsSucceed(s, config, env) && SomeOrder(s.fleet, JobOf(config, now, env))
  }

  lemma AppliedIsPlayed(s: State, config: Config, now: int, env: Environment, moves: seq<Move>)
    ensures Applied(s, config, now, env, moves).1 <==>
            Admitted(config, env) && OutboundsSucceed(s, config, env) && Play(s.fleet, moves, JobOf(config, now, env)).1
  {
    hide Play, JobOf, Outbounds.AllSucceed, Outbounds.Sync;
    Outbounds.SyncSucceedsExactly(s.outbounds, config.settings.outbounds, env.outboundFails);
  }

  /** For any manager: an update applies in every schedule if and only if its checks pass, the outbounds can be
      synchronised, and the engines are such that every order of the groups succeeds. */
  lemma AppliesAlwaysExactly(s: State, config: Config, now: int, env: Environment)
    requires Sound(s.fleet)
    ensures AppliesAlways(s, config, now, env) <==> MustApply(s, config, now, env)
  {
    hide Sound, Posed, Applied, Admitted, OutboundsSucceed, JobOf, EveryOrder;
    if MustApply(s, config, now, env) {
      EveryScheduleApplies(s, config, now, env);
    } else {
      var moves := SomeScheduleFails(s, config, now, env);
    }
  }

  lemma EveryScheduleApplies(s: State, config: Config, now: int, env: Environment)
    requires Sound(s.fleet) && MustApply(s, config, now, env)
    ensures AppliesAlways(s, config, now, env)
  {
    hide Sound, Posed, Applied, OutboundsSucceed, JobOf, EveryOrder;
    JobPosed(config, now, env);
    SucceedsAlwaysExactly(s.fleet, JobOf(config, now, env));
    forall moves | Schedule(moves, Keys(config.inbounds)) ensures Applied(s, config, now, env, moves).1 {
      AppliedIsPlayed(s, config, now, env, moves);
      assert Schedule(moves, JobOf(config, now, env).groups.Keys);
    }
  }

  lemma SomeScheduleFails(s: State, config: Config, now: int, env: Environment) returns (moves: seq<Move>)
    requires Sound(s.fleet) && !MustApply(s, config, now, env)
    ensures Schedule(moves, Keys(config.inbounds)) && !Applied(s, config, now, env, moves).1
  {
    hide Sound, Posed, Applied, OutboundsSucceed, JobOf, EveryOrder;
    moves := VisitAll(Keys(config.inbounds));
    VisitAllIsSchedule(Keys(config.inbounds));
    if Admitted(config, env) && OutboundsSucceed(s, config, env) {
      JobPosed(config, now, env);
      moves := FailingSchedule(s.fleet, JobOf(config, now, env));
    }
    AppliedIsPlayed(s, config, now, env, moves);
  }

  /** And it applies in some schedule if and only if, beside those checks, some order succeeds. */
  lemma AppliesSometimesExactly(s: State, config: Config, now: int, env: Environment)
    requires Sound(s.fleet)
    ensures AppliesSometimes(s, config, now, env) <==> MayApply(s, config, now, env)
  {
    hide Sound, Posed, Applied, OutboundsSucceed, JobOf, SomeOrder;
    if AppliesSometimes(s, config, now, env) {
      var moves :| Schedule(moves, Keys(config.inbounds)) && Applied(s, config, now, env, moves).1;
      AppliedIsPlayed(s, config, now, env, moves);
      JobPosed(config, now, env);
      assert Schedule(moves, JobOf(config, now, env).groups.Keys);
      SucceedsSometimesExactly(s.fleet, JobOf(config, now, env));
    } else if MayApply(s, config, now, env) {
      var moves := SomeScheduleApplies(s, config, now, env);
    }
  }

  lemma SomeScheduleApplies(s: State, config: Config, now: int, env: Environment) returns (moves: seq<Move>)
    requires Sound(s.fleet) && MayApply(s, config, now, env)
    ensures Schedule(moves, Keys(config.inbounds)) && Applied(s, config, now, env, moves).1
  {
    hide Sound, Posed, Applied, OutboundsSucceed, JobOf, SomeOrder;
    JobPosed(config, now, env);
    moves := SucceedingSchedule(s.fleet, JobOf(config, now, env));
    AppliedIsPlayed(s, config, now, env, moves);
  }

  // ---------- runs to choose from ----------

  lemma AfterMore(calls: seq<Call>, call: Call)
    ensures After(calls + [call]) == Next(After(calls), call)
  {
    hide Next;
    assert (calls + [call])[..|calls|] == calls;
  }

  /** A configuration whose inbounds all have one key. */
  function LoneConfig(inbounds: seq<Inbound>, settings: Settings): Config {
    Config(inbounds, [], settings, "", "")
  }

  ghost predicate Lone(inbounds: seq<Inbound>, key: string) {
    inbounds != [] && key != "" && forall ib :: ib in inbounds ==> ib.enabled && EngineKey(ib) == key
  }

  lemma {:induction false} WholeGroup(inbounds: seq<Inbound>, key: string)
    requires forall ib :: ib in inbounds ==> ib.enabled && EngineKey(ib) == key
    ensures GroupOf(inbounds, [], key) == inbounds
  {
    hide EngineKey;
    if inbounds != [] {
      var front, last := inbounds[..|inbounds| - 1], inbounds[|inbounds| - 1];
      assert inbounds == front + [last];
      WholeGroup(front, key);
      assert last in inbounds && Prepared(last, []) == last;
    }
  }

  lemma LoneJob(inbounds: seq<Inbound>, settings: Settings, key: string)
    requires Lone(inbounds, key)
    ensures Keys(inbounds) == {key} && Grouping(key, inbounds)
    ensures GroupFor(LoneConfig(inbounds, settings), 0, key) == inbounds
  {
    hide EngineKey;
    WholeGroup(inbounds, key);
    assert inbounds[0] in inbounds;
  }

  ghost function LoneCall(inbounds: seq<Inbound>, settings: Settings, key: string): Call {
    UpdateCall(LoneConfig(inbounds, settings), 0, GOOD, [Visits(key)])
  }

  /** An update with one group under good conditions. */
  lemma LoneUpdate(s: State, inbounds: seq<Inbound>, settings: Settings, key: string)
    requires SoundState(s) && Lone(inbounds, key) && OutboundsSucceed(s, LoneConfig(inbounds, settings), GOOD)
    requires Visit(s.fleet, key, inbounds, settings, GOOD.engines).1
    ensures Next(s, LoneCall(inbounds, settings, key)) ==
            State(DropStale(Visit(s.fleet, key, inbounds, settings, GOOD.engines).0, {key}),
                  Outbounds.Sync(s.outbounds, settings.outbounds, {}).0)
  {
    hide Visit, DropStale, Outbounds.AllSucceed, Outbounds.Sync, EngineKey, Keys, GroupFor;
    var config, moves := LoneConfig(inbounds, settings), [Visits(key)];
    var job := JobOf(config, 0, GOOD);
    LoneJob(inbounds, settings, key);
    JobPosed(config, 0, GOOD);
    OneVisit(key);
    Outbounds.SyncSucceedsExactly(s.outbounds, settings.outbounds, {});
    assert moves[1..] == [];
    assert key in job.groups && job.groups[key] == inbounds;
    var (f, ok) := Visit(s.fleet, key, inbounds, settings, GOOD.engines);
    assert Step(s.fleet, moves[0], job) == (f, true);
    assert Play(f, moves[1..], job) == (f, true);
    assert Play(s.fleet, moves, job) == (f, true);
    assert Schedule(moves, Keys(config.inbounds)) && Admitted(config, GOOD);
  }

  /** After it the key holds the only engine. */
  lemma OnlyEngine(f: Fleet, key: string, group: seq<Inbound>, settings: Settings, conditions: Conditions)
    requires forall k :: k in f.engines ==> k == key
    ensures var g := DropStale(Visit(f, key, group, settings, conditions).0, {key});
            g.engines == (if key in g.engines then map[key := g.engines[key]] else map[]) &&
            Get(g.engines, key) == Get(Visit(f, key, group, settings, conditions).0.engines, key)
  {
    hide Visit;
    VisitElsewhereKeeps(f, key, group, settings, conditions);
    var h := Visit(f, key, group, settings, conditions).0;
    forall k | k in h.engines ensures k == key {
      assert k != key ==> Get(h.engines, k) == Get(f.engines, k);
    }
  }

  /** An Xray inbound that needs no accounts, no name and no socket. */
  const IDLE: Inbound := Inbound("", "", 0, {}, true, Xray, TProxy, "", [])

  lemma IdleStarts()
    ensures Lone([IDLE], SHARED_XRAY_KEY) && NewKind([IDLE]) == Some(XrayEngine)
    ensures XrayAccounts.Bootable([IDLE]) && SocketsOf([IDLE]) == {}
  {
    assert [IDLE][..0] == [] && XrayAccounts.Portals([]) == Some(map[]);
    assert XrayAccounts.Portals([IDLE]) == Some(map[]);
  }

  /** An update with the idle inbound leaves one Xray engine. */
  lemma IdleUpdate(settings: Settings) returns (e: Engine)
    requires OutboundsSucceed(FRESH, LoneConfig([IDLE], settings), GOOD)
    ensures var s := Next(FRESH, LoneCall([IDLE], settings, SHARED_XRAY_KEY));
            && s.fleet.engines == map[SHARED_XRAY_KEY := e] && e.kind == XrayEngine && e.xray.lastSettings == settings
            && s.outbounds == Outbounds.Sync(Outbounds.NEW_MANAGER, settings.outbounds, {}).0
  {
    hide Visit, DropStale, XrayAccounts.Bootable, Next, SoundState, Outbounds.Sync, SoundEngine, Keeps, NewKind, Lone,
         OutboundsSucceed, Keyed;
    IdleStarts();
    FreshSound();
    LoneJob([IDLE], settings, SHARED_XRAY_KEY);
    VisitShared(NO_ENGINES, [IDLE], settings, GOOD.engines);
    LoneUpdate(FRESH, [IDLE], settings, SHARED_XRAY_KEY);
    OnlyEngine(NO_ENGINES, SHARED_XRAY_KEY, [IDLE], settings, GOOD.engines);
    e := Next(FRESH, LoneCall([IDLE], settings, SHARED_XRAY_KEY)).fleet.engines[SHARED_XRAY_KEY];
  }

  /** A run after which all desired outbounds run, and a single Xray engine holds no socket and will not keep its
      instance for a configuration with the given settings. */
  lemma PrimedRun(settings: Settings) returns (calls: seq<Call>, e: Engine)
    requires Outbounds.CouldRun(Outbounds.Desired(settings.outbounds))
    ensures var s := After(calls);
            && s.fleet.engines == map[SHARED_XRAY_KEY := e] && e.kind == XrayEngine && e.xray.lastSettings != settings
            && (forall t :: t in Outbounds.Desired(settings.outbounds) ==>
                  Outbounds.UpToDate(s.outbounds.processes, t, Outbounds.Desired(settings.outbounds)[t]))
  {
    hide Next, After, Outbounds.Desired, Outbounds.Sync, Outbounds.UpToDate, OutboundsSucceed;
    var other := Settings(Outbounds.Asked(settings.outbounds), settings.rules + "x", "");
    assert |other.rules| != |settings.rules|;
    OutboundsStart(settings.outbounds, other);
    e := IdleUpdate(other);
    AfterNone();
    calls := [] + [LoneCall([IDLE], other, SHARED_XRAY_KEY)];
    AfterMore([], LoneCall([IDLE], other, SHARED_XRAY_KEY));
  }

  lemma OutboundsStart(outbounds: seq<Outbound>, settings: Settings)
    requires Outbounds.CouldRun(Outbounds.Desired(outbounds)) && settings.outbounds == Outbounds.Asked(outbounds)
    ensures OutboundsSucceed(FRESH, LoneConfig([IDLE], settings), GOOD)
    ensures forall t :: t in Outbounds.Desired(outbounds) ==>
              Outbounds.UpToDate(Outbounds.Sync(Outbounds.NEW_MANAGER, settings.outbounds, {}).0.processes, t,
                Outbounds.Desired(outbounds)[t])
  {
    Outbounds.AskedStarts(outbounds);
  }

  lemma SameShapeLone(group: seq<Inbound>, suited: seq<Inbound>, key: string)
    requires XrayAccounts.Stripped(suited) == XrayAccounts.Stripped(group) && Lone(group, key)
    ensures Lone(suited, key)
  {
    hide EngineKey;
    XrayAccounts.SameShape(suited, group);
    forall ib | ib in suited ensures ib.enabled && EngineKey(ib) == key {
      var i :| 0 <= i < |suited| && suited[i] == ib;
      KeyIgnoresAccounts(suited[i], group[i]);
      assert group[i] in group;
    }
  }

  lemma GroupIsLone(config: Config, now: int, key: string)
    requires key in Keys(config.inbounds) && key != ""
    ensures Lone(GroupFor(config, now, key), key) && Grouping(key, GroupFor(config, now, key))
  {
    GroupIsKeyed(config.inbounds, Active(config.accounts, now), key);
    GroupIsEnabled(config.inbounds, Active(config.accounts, now), key);
  }

  lemma UpToDateSucceeds(s: State, settings: Settings, config: Config, env: Environment)
    requires config.settings == settings
    requires forall t :: t in Outbounds.Desired(settings.outbounds) ==>
               Outbounds.UpToDate(s.outbounds.processes, t, Outbounds.Desired(settings.outbounds)[t])
    ensures OutboundsSucceed(s, config, env)
    ensures forall t :: t in Outbounds.Desired(settings.outbounds) ==>
              Outbounds.UpToDate(Outbounds.Sync(s.outbounds, settings.outbounds, env.outboundFails).0.processes, t,
                                 Outbounds.Desired(settings.outbounds)[t])
  {
    hide Outbounds.Desired, Outbounds.Sync;
    Outbounds.SyncSucceedsExactly(s.outbounds, settings.outbounds, env.outboundFails);
    Outbounds.SyncConverges(s.outbounds, settings.outbounds, env.outboundFails);
  }

  /** An engine that has accepted the group with suitable accounts keeps its instance for the group. */
  lemma RecallsKeeps(e: Engine, suited: seq<Inbound>, group: seq<Inbound>, settings: Settings)
    requires Recalls(e, suited, settings) && XrayAccounts.Stripped(suited) == XrayAccounts.Stripped(group)
    requires XrayAccounts.HotReachable(group)
    ensures Keeps(Some(e), group, settings)
  {
    assert |XrayAccounts.Stripped(group)| == |group|;
  }

  /** An Xray engine that does not keep its instance, alone on the host, starts with the group. */
  lemma StartsAgain(s: State, held: Engine, group: seq<Inbound>, settings: Settings)
    requires SoundState(s) && s.fleet.engines == map[SHARED_XRAY_KEY := held] && held.kind == XrayEngine &&
             held.xray.lastSettings != settings
    requires Grouping(SHARED_XRAY_KEY, group) && XrayAccounts.Bootable(group)
    ensures var (g, ok) := Visit(s.fleet, SHARED_XRAY_KEY, group, settings, GOOD.engines);
            ok && SHARED_XRAY_KEY in g.engines && Recalls(g.engines[SHARED_XRAY_KEY], group, settings)
  {
    hide Visit, XrayAccounts.Bootable, Sound, SoundEngine, Recalls, Keyed, Exclusive, Engines.Tracked,
         Outbounds.Tracked;
    SoundKey(s.fleet, SHARED_XRAY_KEY);
    VisitShared(s.fleet, group, settings, GOOD.engines);
  }

  /** A run after which all desired outbounds run, and an Xray engine keeps its instance for the group. */
  lemma HotRun(group: seq<Inbound>, settings: Settings) returns (calls: seq<Call>, e: Engine)
    requires Outbounds.CouldRun(Outbounds.Desired(settings.outbounds))
    requires Lone(group, SHARED_XRAY_KEY) && XrayAccounts.HotReachable(group)
    ensures var s := After(calls);
            && s.fleet.engines == map[SHARED_XRAY_KEY := e] && Keeps(Some(e), group, settings)
            && (forall t :: t in Outbounds.Desired(settings.outbounds) ==>
                  Outbounds.UpToDate(s.outbounds.processes, t, Outbounds.Desired(settings.outbounds)[t]))
  {
    hide Visit, DropStale, XrayAccounts.Bootable, Next, After, SoundState, Outbounds.Desired, Outbounds.Sync, NewKind,
         Lone,
         Recalls, XrayAccounts.Restartable, Outbounds.UpToDate, OutboundsSucceed;
    var primed, held := PrimedRun(settings);
    var s := After(primed);
    var suited := XrayAccounts.RestartableBoots(group);
    SameShapeLone(group, suited, SHARED_XRAY_KEY);
    AlwaysSound(primed);
    UpToDateSucceeds(s, settings, LoneConfig(suited, settings), GOOD);
    LoneJob(suited, settings, SHARED_XRAY_KEY);
    StartsAgain(s, held, suited, settings);
    LoneUpdate(s, suited, settings, SHARED_XRAY_KEY);
    OnlyEngine(s.fleet, SHARED_XRAY_KEY, suited, settings, GOOD.engines);
    AfterMore(primed, LoneCall(suited, settings, SHARED_XRAY_KEY));
    calls := primed + [LoneCall(suited, settings, SHARED_XRAY_KEY)];
    e := After(calls).fleet.engines[SHARED_XRAY_KEY];
    RecallsKeeps(e, suited, group, settings);
  }

  lemma {:induction false} LengthBound(keys: set<string>) returns (n: nat)
    ensures forall k :: k in keys ==> |k| < n
    decreases keys
  {
    n := 0;
    if keys != {} {
      var k := Pick(keys);
      var m := LengthBound(keys - {k});
      n := m + |k| + 1;
    }
  }

  /** A sing-box inbound that has the address of a given inbound and a key of its own. */
  lemma Namesake(ib: Inbound, keys: set<string>) returns (other: Inbound)
    ensures other.sockets == ib.sockets && EngineKey(other) !in keys
    ensures other.enabled && other.core.SingBox? && other.protocol.Socks?
  {
    var n := LengthBound(keys);
    other := Inbound(seq(n, _ => 'a'), ib.listen, ib.port, ib.sockets, true, SingBox, Socks, ib.rest, []);
    assert |EngineKey(other)| >= n;
  }

  lemma SingBoxKey(ib: Inbound)
    requires ib.enabled && ib.core.SingBox? && SingBoxSupports(ib.protocol)
    ensures Lone([ib], EngineKey(ib)) && EngineKey(ib) != SHARED_XRAY_KEY && KindOfKey(EngineKey(ib)) == SingBoxEngine
  {
    KeyShapes(ib);
    FirstLetters(EngineKey(ib));
    assert EngineKey(ib) == "singbox:" + ib.name;
    assert EngineKey(ib)[0] == 's';
  }

  const NO_SETTINGS: Settings := Settings([], "", "")

  ghost function SingBoxRun(ib: Inbound): seq<Call> {
    [LoneCall([ib], NO_SETTINGS, EngineKey(ib)), SettleCall(EngineKey(ib))]
  }

  /** A run after which a sing-box child listens for the inbound, and nothing else runs. */
  lemma SingBoxListens(ib: Inbound) returns (e: Engine)
    requires ib.enabled && ib.core.SingBox? && SingBoxSupports(ib.protocol)
    ensures After(SingBoxRun(ib)).fleet.engines == map[EngineKey(ib) := e] && Holds(e) == ib.sockets
  {
    hide Visit, DropStale, Next, After, SoundState, Outbounds.Sync, EngineKey, Lone, Settle, SoundEngine,
         SingBoxSupports, Holds;
    var key := EngineKey(ib);
    var call := LoneCall([ib], NO_SETTINGS, key);
    SingBoxKey(ib);
    FreshSound();
    LoneJob([ib], NO_SETTINGS, key);
    assert OutboundsSucceed(FRESH, LoneConfig([ib], NO_SETTINGS), GOOD) by { assert Outbounds.Desired([]) == map[]; }
    VisitElsewhere(NO_ENGINES, key, [ib], NO_SETTINGS, GOOD.engines);
    LoneUpdate(FRESH, [ib], NO_SETTINGS, key);
    OnlyEngine(NO_ENGINES, key, [ib], NO_SETTINGS, GOOD.engines);
    AfterNone();
    AfterMore([], call);
    AfterMore([call], SettleCall(key));
    assert [] + [call] == [call] && [call] + [SettleCall(key)] == SingBoxRun(ib);
    e := ListensAlone(After([call]), key, ib);
  }

  lemma AfterNone()
    ensures After([]) == FRESH
  {
  }

  lemma ListensAlone(s: State, key: string, ib: Inbound) returns (e: Engine)
    requires key in s.fleet.engines && s.fleet.engines == map[key := s.fleet.engines[key]] &&
             s.fleet.engines[key].child == Starting(ib)
    requires SoundEngine(key, s.fleet.engines[key]) && key != SHARED_XRAY_KEY
    ensures Next(s, SettleCall(key)).fleet.engines == map[key := e] && Holds(e) == ib.sockets
  {
    hide Settle, Possible, XrayAccounts.Remembers, SocketsOf;
    SettleAt(s.fleet, key);
    SettleElsewhereKeeps(s.fleet, key);
    HoldsAfterSettle(s.fleet, key);
    var after := Settle(s.fleet, key).engines;
    assert Taken(s.fleet.engines, key) == {};
    e := after[key];
    forall k ensures k in after <==> k == key {
      assert k != key ==> Get(after, k) == Get(s.fleet.engines, k);
    }
    assert after == map[key := e];
  }

  // ---------- same config, same outcome ----------

  /** Some engine could serve the shared group. */
  predicate SharedCould(group: seq<Inbound>, env: Environment) {
    || (XrayAccounts.HotReachable(group) && XrayAccounts.DialsSucceed(group, env.engines.xray.noDial))
    || (env.engines.xray.starts && XrayAccounts.Bootable(group))
  }

  /** A fresh engine serves the shared group, none that is kept fails to be dialled, and no socket can be in the way. */
  predicate SharedMust(group: seq<Inbound>, env: Environment) {
    && NewKind(group) == Some(XrayEngine) && env.engines.xray.starts && XrayAccounts.Bootable(group)
    && (XrayAccounts.HotReachable(group) ==> XrayAccounts.DialsSucceed(group, env.engines.xray.noDial))
    && SocketsOf(group) == {}
  }

  /** Some manager could apply the configuration. */
  ghost predicate CouldApply(config: Config, now: int, env: Environment) {
    && Admitted(config, env)
    && Outbounds.CouldRun(Outbounds.Desired(config.settings.outbounds))
    && AllSpawn(Keys(config.inbounds), JobOf(config, now, env))
    && (SHARED_XRAY_KEY in Keys(config.inbounds) ==> SharedCould(GroupFor(config, now, SHARED_XRAY_KEY), env))
  }

  /** No manager can fail to apply it. */
  predicate Guaranteed(config: Config, now: int, env: Environment) {
    && Admitted(config, env)
    && Outbounds.FreshSucceeds(Outbounds.Desired(config.settings.outbounds), env.outboundFails)
    && AllSpawn(Keys(config.inbounds), JobOf(config, now, env))
    && (SHARED_XRAY_KEY in Keys(config.inbounds) ==> SharedMust(GroupFor(config, now, SHARED_XRAY_KEY), env))
  }

  lemma KeepsIsReachable(f: Fleet, group: seq<Inbound>, settings: Settings)
    requires Sound(f) && Keeps(Get(f.engines, SHARED_XRAY_KEY), group, settings)
    ensures XrayAccounts.HotReachable(group)
  {
    hide Sound, XrayAccounts.HotReachable, XrayAccounts.Remembers, XrayAccounts.Hot;
    SoundKey(f, SHARED_XRAY_KEY);
    XrayAccounts.HotIsReachable(f.engines[SHARED_XRAY_KEY].xray, group, settings);
  }

  lemma MayIsCould(s: State, config: Config, now: int, env: Environment)
    requires SoundState(s) && MayApply(s, config, now, env)
    ensures CouldApply(config, now, env)
  {
    hide Sound, Exclusive, Engines.Tracked, Outbounds.Tracked, Outbounds.AllOfStartable, AllSpawn, Outbounds.CouldRun,
         XrayAccounts.HotReachable,
         XrayAccounts.Bootable, XrayAccounts.DialsSucceed, SocketsOf, Fixed, JobOf;
    Outbounds.OutcomeBounds(s.outbounds, Outbounds.Desired(config.settings.outbounds), env.outboundFails);
    JobPosed(config, now, env);
    if SHARED_XRAY_KEY in Keys(config.inbounds) {
      var group := GroupFor(config, now, SHARED_XRAY_KEY);
      assert JobOf(config, now, env).env == env.engines &&
        JobOf(config, now, env).settings == config.settings by { JobParts(config, now, env); }
      if Keeps(Get(s.fleet.engines, SHARED_XRAY_KEY), group, config.settings) {
        KeepsIsReachable(s.fleet, group, config.settings);
      }
    }
  }

  lemma JobParts(config: Config, now: int, env: Environment)
    ensures JobOf(config, now, env).env == env.engines && JobOf(config, now, env).settings == config.settings
  {
  }

  lemma GuaranteedMust(s: State, config: Config, now: int, env: Environment)
    requires SoundState(s) && Guaranteed(config, now, env)
    ensures MustApply(s, config, now, env)
  {
    hide Sound, Exclusive, Engines.Tracked, Outbounds.Tracked, Outbounds.AllOfStartable, AllSpawn,
         Outbounds.FreshSucceeds, XrayAccounts.HotReachable,
         XrayAccounts.Bootable, XrayAccounts.DialsSucceed, SocketsOf, Fixed, JobOf, Wanted, NewKind;
    Outbounds.OutcomeBounds(s.outbounds, Outbounds.Desired(config.settings.outbounds), env.outboundFails);
    JobPosed(config, now, env);
    JobParts(config, now, env);
    if SHARED_XRAY_KEY in Keys(config.inbounds) {
      var group := GroupFor(config, now, SHARED_XRAY_KEY);
      if Keeps(Get(s.fleet.engines, SHARED_XRAY_KEY), group, config.settings) {
        KeepsIsReachable(s.fleet, group, config.settings);
      }
    }
  }

  /** The run after which a configuration that some manager could apply is applied: a hot one if dialling succeeds,
      and otherwise one that only leaves an Xray engine at the shared key. */
  lemma AppliesSomewhere(config: Config, now: int, env: Environment) returns (calls: seq<Call>, moves: seq<Move>)
    requires CouldApply(config, now, env)
    ensures Schedule(moves, Keys(config.inbounds)) && Applied(After(calls), config, now, env, moves).1
  {
    hide After, Outbounds.Desired, AllSpawn, JobOf, SoundState, Outbounds.UpToDate, XrayAccounts.HotReachable,
         XrayAccounts.Bootable, SomeOrder,
         Applied, OutboundsSucceed, Outbounds.CouldRun, Keys, GroupFor, Lone, Grouping, XrayAccounts.Hot;
    var group := GroupFor(config, now, SHARED_XRAY_KEY);
    var e: Engine;
    calls, e := PrimedRun(config.settings);
    if SHARED_XRAY_KEY in Keys(config.inbounds) {
      GroupIsLone(config, now, SHARED_XRAY_KEY);
      if XrayAccounts.HotReachable(group) && XrayAccounts.DialsSucceed(group, env.engines.xray.noDial) {
        calls, e := HotRun(group, config.settings);
      }
    }
    var s := After(calls);
    AlwaysSound(calls);
    UpToDateSucceeds(s, config.settings, config, env);
    AloneMay(s, e, config, now, env);
    moves := SomeScheduleApplies(s, config, now, env);
  }

  lemma AloneMay(s: State, e: Engine, config: Config, now: int, env: Environment)
    requires s.fleet.engines == map[SHARED_XRAY_KEY := e] && e.kind == XrayEngine && SoundState(s)
    requires CouldApply(config, now, env) && OutboundsSucceed(s, config, env)
    requires SHARED_XRAY_KEY in Keys(config.inbounds) ==>
               var group := GroupFor(config, now, SHARED_XRAY_KEY);
               if XrayAccounts.HotReachable(group) && XrayAccounts.DialsSucceed(group, env.engines.xray.noDial) then
                 Keeps(Some(e), group, config.settings)
               else e.xray.lastSettings != config.settings
    ensures MayApply(s, config, now, env) && Sound(s.fleet)
  {
    hide AllSpawn, OutboundsSucceed, XrayAccounts.HotReachable, XrayAccounts.Bootable, XrayAccounts.DialsSucceed,
         SocketsOf, JobOf, NewKind, Sound,
         Exclusive, Engines.Tracked, Outbounds.Tracked, Outbounds.AllOfStartable;
    JobPosed(config, now, env);
    JobParts(config, now, env);
    assert Fixed(s.fleet, JobOf(config, now, env), SHARED_XRAY_KEY) == {};
  }

  /** The run after which a configuration that is not guaranteed is not applied in some schedule: none at all, one
      after which dialling is in vain, or one after which a sing-box child holds a socket of the Xray group. */
  lemma FailsSomewhere(config: Config, now: int, env: Environment) returns (calls: seq<Call>, moves: seq<Move>)
    requires !Guaranteed(config, now, env)
    ensures Schedule(moves, Keys(config.inbounds)) && !Applied(After(calls), config, now, env, moves).1
  {
    hide After, SoundState, MustApply, Applied, Guaranteed, Keys, GroupFor, Lone, Grouping;
    calls := [];
    AfterNone();
    if MustApply(FRESH, config, now, env) {
      FreshMust(config, now, env);
      var group := GroupFor(config, now, SHARED_XRAY_KEY);
      GroupIsLone(config, now, SHARED_XRAY_KEY);
      if SocketsOf(group) != {} {
        calls := SocketRun(config, now, env);
      } else {
        var e: Engine;
        calls, e := HotRun(group, config.settings);
        VainFails(After(calls), e, config, now, env);
      }
    }
    AlwaysSound(calls);
    SoundIsSound(After(calls));
    moves := SomeScheduleFails(After(calls), config, now, env);
  }

  lemma SoundIsSound(s: State)
    requires SoundState(s)
    ensures Sound(s.fleet)
  {
  }

  /** What a fresh manager needs beyond its own success. */
  lemma FreshMust(config: Config, now: int, env: Environment)
    requires MustApply(FRESH, config, now, env) && !Guaranteed(config, now, env)
    ensures SHARED_XRAY_KEY in Keys(config.inbounds) && "" !in Keys(config.inbounds)
    ensures Outbounds.CouldRun(Outbounds.Desired(config.settings.outbounds))
    ensures var group := GroupFor(config, now, SHARED_XRAY_KEY);
            || SocketsOf(group) != {}
            || (XrayAccounts.HotReachable(group) && !XrayAccounts.DialsSucceed(group, env.engines.xray.noDial))
  {
    hide AllSpawn, XrayAccounts.HotReachable, XrayAccounts.Bootable, XrayAccounts.DialsSucceed, SocketsOf, JobOf,
         NewKind, NobodyTakes;
    var desired := Outbounds.Desired(config.settings.outbounds);
    Outbounds.FreshProcesses(desired, env.outboundFails);
    Outbounds.OutcomeBounds(Outbounds.NEW_MANAGER, desired, env.outboundFails);
    JobPosed(config, now, env);
    JobParts(config, now, env);
  }

  lemma VainFails(s: State, e: Engine, config: Config, now: int, env: Environment)
    requires s.fleet.engines == map[SHARED_XRAY_KEY := e] && "" !in Keys(config.inbounds)
    requires SHARED_XRAY_KEY in Keys(config.inbounds) &&
             Keeps(Some(e), GroupFor(config, now, SHARED_XRAY_KEY), config.settings)
    requires !XrayAccounts.DialsSucceed(GroupFor(config, now, SHARED_XRAY_KEY), env.engines.xray.noDial)
    ensures !MustApply(s, config, now, env)
  {
    hide AllSpawn, XrayAccounts.DialsSucceed, SocketsOf, JobOf, NobodyTakes, Keeps, OutboundsSucceed;
    JobPosed(config, now, env);
    JobParts(config, now, env);
  }

  lemma SocketRun(config: Config, now: int, env: Environment) returns (calls: seq<Call>)
    requires SHARED_XRAY_KEY in Keys(config.inbounds) && SocketsOf(GroupFor(config, now, SHARED_XRAY_KEY)) != {}
    requires "" !in Keys(config.inbounds)
    ensures !MustApply(After(calls), config, now, env)
  {
    hide AllSpawn, JobOf, NobodyTakes, Keeps, OutboundsSucceed, After, SingBoxRun, EngineKey, Keys, GroupFor, Holds,
         EveryOrder;
    var group := GroupFor(config, now, SHARED_XRAY_KEY);
    var s :| s in SocketsOf(group);
    var ib :| ib in group && XrayAccounts.Emitted(ib) && s in ib.sockets;
    var other := Namesake(ib, Keys(config.inbounds));
    var e := SingBoxListens(other);
    calls := SingBoxRun(other);
    var job := JobOf(config, now, env);
    JobPosed(config, now, env);
    SingBoxKey(other);
    assert s in Holds(e) && s in SocketsOf(job.groups[SHARED_XRAY_KEY]);
    StuckByOne(After(calls).fleet, job, EngineKey(other), e);
    StuckFails(After(calls).fleet, job, EngineKey(other));
  }

  lemma StuckByOne(f: Fleet, job: Job, stale: string, e: Engine)
    requires f.engines == map[stale := e] && SHARED_XRAY_KEY in job.groups && stale !in job.groups
    requires !(Holds(e) !! SocketsOf(job.groups[SHARED_XRAY_KEY]))
    ensures Stuck(f, job, stale)
  {
  }

  lemma StuckFails(f: Fleet, job: Job, stale: string)
    requires Stuck(f, job, stale)
    ensures !EveryOrder(f, job)
  {
    hide AllSpawn, Taken, SocketsOf, Holds, Keeps, NobodyTakes;
    StuckTakes(f, job, stale);
  }

  /** Whatever happened before and however the groups are scheduled, the configuration is applied, or is not. */
  ghost predicate Decided(config: Config, now: int, env: Environment, outcome: bool) {
    forall calls, moves :: Schedule(moves, Keys(config.inbounds)) ==>
      (Applied(After(calls), config, now, env, moves).1 <==> outcome)
  }

  /** Every manager applies the configuration in every schedule if and only if it is guaranteed, a condition on the
      configuration and the environment alone. */
  lemma AlwaysAppliedExactly(config: Config, now: int, env: Environment)
    ensures Decided(config, now, env, true) <==> Guaranteed(config, now, env)
  {
    hide Guaranteed, Applied, After, SoundState;
    if Guaranteed(config, now, env) {
      forall calls, moves | Schedule(moves, Keys(config.inbounds))
        ensures Applied(After(calls), config, now, env, moves).1
      {
        AlwaysSound(calls);
        SoundIsSound(After(calls));
        GuaranteedMust(After(calls), config, now, env);
        EveryScheduleApplies(After(calls), config, now, env);
      }
    } else {
      var calls, moves := FailsSomewhere(config, now, env);
    }
  }

  /** No manager applies it in any schedule if and only if none could, again a condition on input alone. */
  lemma NeverAppliedExactly(config: Config, now: int, env: Environment)
    ensures Decided(config, now, env, false) <==> !CouldApply(config, now, env)
  {
    hide CouldApply, Applied, After, SoundState, MayApply;
    if CouldApply(config, now, env) {
      var calls, moves := AppliesSomewhere(config, now, env);
    } else {
      forall calls, moves | Schedule(moves, Keys(config.inbounds))
        ensures !Applied(After(calls), config, now, env, moves).1
      {
        AlwaysSound(calls);
        SoundIsSound(After(calls));
        AppliesSometimesExactly(After(calls), config, now, env);
        if MayApply(After(calls), config, now, env) {
          MayIsCould(After(calls), config, now, env);
        }
      }
    }
  }

  /** Same configuration, same outcome: all runs of managers and all schedules agree on a configuration if and only if
      it is guaranteed or could never be applied. */
  lemma OutcomeIndependentOfHistory(config: Config, now: int, env: Environment)
    ensures (exists outcome :: Decided(config, now, env, outcome)) <==>
              Guaranteed(config, now, env) || !CouldApply(config, now, env)
  {
    hide Guaranteed, CouldApply, Decided;
    AlwaysAppliedExactly(config, now, env);
    NeverAppliedExactly(config, now, env);
    assert Decided(config, now, env, true) || Decided(config, now, env, false) <==>
      Guaranteed(config, now, env) || !CouldApply(config, now, env);
  }

  /** Nothing that runs is in the way of the shared group: an Xray engine that is kept can be dialled, and otherwise
      no other engine holds a socket of the group and no child can take one meanwhile. */
  ghost predicate Unobstructed(f: Fleet, job: Job) {
    SHARED_XRAY_KEY in job.groups ==>
      var held, group := Get(f.engines, SHARED_XRAY_KEY), job.groups[SHARED_XRAY_KEY];
      if Keeps(held, group, job.settings) then XrayAccounts.DialsSucceed(group, job.env.xray.noDial)
      else SocketsOf(group) !! Taken(f.engines, SHARED_XRAY_KEY) && NobodyTakes(f, job, SocketsOf(group))
  }

  /** A configuration that a fresh manager applies in every schedule is applied in every schedule by a manager with a
      history if and only if nothing that it runs is in the way of the shared group. */
  lemma SameConfigSameOutcome(calls: seq<Call>, config: Config, now: int, env: Environment)
    requires AppliesAlways(FRESH, config, now, env)
    ensures AppliesAlways(After(calls), config, now, env) <==> Unobstructed(After(calls).fleet, JobOf(config, now, env))
  {
    hide AppliesAlways, After, AllSpawn, NobodyTakes, Taken, SocketsOf, NewKind, XrayAccounts.Bootable,
         XrayAccounts.DialsSucceed, Sound, Exclusive,
         Engines.Tracked, Outbounds.Tracked, Outbounds.AllOfStartable, JobOf;
    FreshSound();
    AlwaysSound(calls);
    AppliesAlwaysExactly(FRESH, config, now, env);
    AppliesAlwaysExactly(After(calls), config, now, env);
    JobPosed(config, now, env);
    JobParts(config, now, env);
    var desired := Outbounds.Desired(config.settings.outbounds);
    Outbounds.FreshProcesses(desired, env.outboundFails);
    Outbounds.OutcomeBounds(After(calls).outbounds, desired, env.outboundFails);
  }

  // ---------- inputs that depend on history ----------

  lemma OneInbound(ib: Inbound, key: string, env: Environment)
    requires Lone([ib], key)
    ensures var job := JobOf(LoneConfig([ib], NO_SETTINGS), 0, env);
            Posed(job) && Keys([ib]) == {key} && job.groups == map[key := [ib]] && job.env == env.engines &&
              job.settings == NO_SETTINGS
  {
    hide EngineKey, GroupFor, Lone;
    LoneJob([ib], NO_SETTINGS, key);
    assert key != "";
    JobPosed(LoneConfig([ib], NO_SETTINGS), 0, env);
    JobParts(LoneConfig([ib], NO_SETTINGS), 0, env);
    var groups := JobOf(LoneConfig([ib], NO_SETTINGS), 0, env).groups;
    assert key in groups && groups[key] == [ib];
    assert groups == map[key := [ib]];
  }

  lemma NoOutbounds(s: State, config: Config, env: Environment)
    requires config.settings == NO_SETTINGS
    ensures OutboundsSucceed(s, config, env)
  {
    assert Outbounds.Desired([]) == map[];
  }

  /** The group of a key and its first inbound may disagree: a fresh manager refuses a lone transparent proxy with the
      sing-box core, and one that already runs Xray applies it. */
  lemma TProxyDependsOnHistory(ib: Inbound) returns (calls: seq<Call>)
    requires ib.enabled && ib.protocol.TProxy? && ib.core.SingBox? && ib.name != XrayAccounts.API_TAG
    ensures !AppliesSometimes(FRESH, LoneConfig([ib], NO_SETTINGS), 0, GOOD)
    ensures AppliesAlways(After(calls), LoneConfig([ib], NO_SETTINGS), 0, GOOD)
  {
    hide After, SoundState, EngineKey, OutboundsSucceed, JobOf, Keys, XrayAccounts.Bootable, SocketsOf,
         Outbounds.UpToDate, Outbounds.Desired,
         AppliesAlways, AppliesSometimes;
    var config := LoneConfig([ib], NO_SETTINGS);
    TProxyIsShared(ib);
    OneInbound(ib, SHARED_XRAY_KEY, GOOD);
    assert "" !in Keys([ib]);
    FreshSound();
    SoundIsSound(FRESH);
    AppliesSometimesExactly(FRESH, config, 0, GOOD);
    var e: Engine;
    NoDesired();
    calls, e := PrimedRun(NO_SETTINGS);
    AlwaysSound(calls);
    SoundIsSound(After(calls));
    NoOutbounds(After(calls), config, GOOD);
    AppliesAlwaysExactly(After(calls), config, 0, GOOD);
    NobodyElse(After(calls).fleet, JobOf(config, 0, GOOD), e);
  }

  lemma NoDesired()
    ensures Outbounds.CouldRun(Outbounds.Desired(NO_SETTINGS.outbounds))
  {
  }

  lemma TProxyIsShared(ib: Inbound)
    requires ib.enabled && ib.protocol.TProxy? && ib.core.SingBox? && ib.name != XrayAccounts.API_TAG
    ensures Lone([ib], SHARED_XRAY_KEY) && NewKind([ib]) == Some(SingBoxEngine) && XrayAccounts.Bootable([ib])
  {
    assert [ib][..0] == [] && XrayAccounts.Portals([]) == Some(map[]);
    assert XrayAccounts.Portals([ib]) == Some(map[]);
  }

  lemma NobodyElse(f: Fleet, job: Job, e: Engine)
    requires f.engines == map[SHARED_XRAY_KEY := e] && job.groups.Keys == {SHARED_XRAY_KEY}
    ensures Taken(f.engines, SHARED_XRAY_KEY) == {} && forall sockets :: NobodyTakes(f, job, sockets)
  {
    hide Holds;
  }

  lemma ShapeAppend(group: seq<Inbound>, ib: Inbound)
    ensures XrayAccounts.Stripped(group + [ib]) == XrayAccounts.Stripped(group) + [ib.(accounts := [])]
  {
  }

  lemma {:induction false} GroupShape(inbounds: seq<Inbound>, a: seq<Account>, b: seq<Account>, key: string)
    ensures XrayAccounts.Stripped(GroupOf(inbounds, a, key)) == XrayAccounts.Stripped(GroupOf(inbounds, b, key))
  {
    hide EngineKey, XrayAccounts.Stripped;
    if inbounds != [] {
      var front, last := inbounds[..|inbounds| - 1], inbounds[|inbounds| - 1];
      GroupShape(front, a, b, key);
      ShapeAppend(GroupOf(front, a, key), Prepared(last, a));
      ShapeAppend(GroupOf(front, b, key), Prepared(last, b));
      assert GroupOf(front, a, key) + [] == GroupOf(front, a, key) &&
        GroupOf(front, b, key) + [] == GroupOf(front, b, key);
    }
  }

  /** Updates with one configuration, at any times and in any environments and schedules, with children settling in
      between. */
  ghost predicate Retries(calls: seq<Call>, config: Config) {
    forall call :: call in calls ==> !call.ExitCall? && (call.UpdateCall? ==> call.config == config)
  }

  lemma StuckAnyTime(f: Fleet, config: Config, now: int, env: Environment, now': int, env': Environment, stale: string)
    requires "" !in Keys(config.inbounds) && Stuck(f, JobOf(config, now, env), stale)
    ensures Stuck(f, JobOf(config, now', env'), stale)
  {
    hide Stuck, GroupOf, JobOf, XrayAccounts.Stripped;
    JobPosed(config, now, env);
    JobPosed(config, now', env');
    JobParts(config, now, env);
    JobParts(config, now', env');
    StuckIsShared(f, JobOf(config, now, env), stale);
    GroupShape(config.inbounds, Active(config.accounts, now), Active(config.accounts, now'), SHARED_XRAY_KEY);
    StuckAlike(f, JobOf(config, now, env), JobOf(config, now', env'), stale);
  }

  lemma StuckIsShared(f: Fleet, job: Job, stale: string)
    requires Stuck(f, job, stale)
    ensures SHARED_XRAY_KEY in job.groups
  {
  }

  lemma NextStuck(s: State, call: Call, config: Config, now: int, env: Environment, stale: string)
    requires SoundState(s) && "" !in Keys(config.inbounds) && Stuck(s.fleet, JobOf(config, now, env), stale)
    requires !call.ExitCall? && (call.UpdateCall? ==> call.config == config)
    ensures Stuck(Next(s, call).fleet, JobOf(config, now, env), stale)
    ensures call.UpdateCall? && Schedule(call.moves, Keys(config.inbounds)) ==>
              !Applied(s, config, call.now, call.env, call.moves).1
  {
    hide Stuck, Sound, Exclusive, Engines.Tracked, Outbounds.Tracked, Outbounds.AllOfStartable, JobOf, Play, Settle,
         Outbounds.Sync, Posed, DropStale;
    var job := JobOf(config, now, env);
    JobPosed(config, now, env);
    if call.SettleCall? {
      StepStuck(s.fleet, Settles(call.key), job, stale);
    } else if Schedule(call.moves, Keys(config.inbounds)) {
      var job' := JobOf(config, call.now, call.env);
      JobPosed(config, call.now, call.env);
      StuckAnyTime(s.fleet, config, now, env, call.now, call.env, stale);
      StuckIsShared(s.fleet, job', stale);
      PlayStuck(s.fleet, call.moves, Keys(config.inbounds), job', stale);
      StuckAnyTime(Play(s.fleet, call.moves, job').0, config, call.now, call.env, now, env, stale);
    }
  }

  lemma {:induction false} RetriesStuck(calls: seq<Call>, retries: seq<Call>, config: Config, now: int,
      env: Environment, stale: string)
    requires "" !in Keys(config.inbounds) && Stuck(After(calls).fleet, JobOf(config, now, env), stale) &&
             Retries(retries, config)
    ensures Stuck(After(calls + retries).fleet, JobOf(config, now, env), stale)
    decreases retries
  {
    hide Stuck, JobOf, Next, SoundState;
    if retries == [] {
      assert calls + retries == calls;
    } else {
      var front, last := retries[..|retries| - 1], retries[|retries| - 1];
      assert retries == front + [last] && calls + retries == (calls + front) + [last];
      RetriesStuck(calls, front, config, now, env, stale);
      AlwaysSound(calls + front);
      NextStuck(After(calls + front), last, config, now, env, stale);
      AfterMore(calls + front, last);
    }
  }

  /** While a stale engine holds a socket of the Xray group and no Xray engine is kept, no update with this
      configuration ever applies, however often it is repeated: stale engines are stopped only after all groups have
      succeeded. */
  lemma StaleEngineBlocks(calls: seq<Call>, retries: seq<Call>, config: Config, now: int, env: Environment,
      moves: seq<Move>, stale: string)
    requires "" !in Keys(config.inbounds) && Stuck(After(calls).fleet, JobOf(config, now, env), stale)
    requires Retries(retries, config) && Schedule(moves, Keys(config.inbounds))
    ensures !Applied(After(calls + retries), config, now, env, moves).1
  {
    hide Stuck, JobOf, Next, After, SoundState, Applied;
    RetriesStuck(calls, retries, config, now, env, stale);
    AlwaysSound(calls + retries);
    NextStuck(After(calls + retries), UpdateCall(config, now, env, moves), config, now, env, stale);
  }

  lemma SwitchedStarts(ib: Inbound)
    requires ib.enabled && ib.protocol.Vless? && ib.core.Xray? && ib.accounts == [] && ib.name != XrayAccounts.API_TAG
    ensures Lone([ib], SHARED_XRAY_KEY) && NewKind([ib]) == Some(XrayEngine) && XrayAccounts.Bootable([ib])
    ensures SocketsOf([ib]) == ib.sockets
  {
    assert [ib][..0] == [] && XrayAccounts.Portals([]) == Some(map[]);
    assert XrayAccounts.Portals([ib]) == Some(map[]);
    assert ib in [ib];
  }

  /** For instance: a VLESS inbound that moves from the sing-box core to the Xray core. A fresh manager applies the new
      configuration in every schedule, and a manager on which the sing-box child listens never applies it, neither at
      once nor on any retry. */
  lemma CoreSwitchFails(ib: Inbound, retries: seq<Call>, now: int, env: Environment, moves: seq<Move>)
    requires ib.enabled && ib.protocol.Vless? && ib.core.SingBox? && ib.accounts == [] &&
             ib.name != XrayAccounts.API_TAG && ib.sockets != {}
    requires Schedule(moves, {SHARED_XRAY_KEY}) && Retries(retries, LoneConfig([ib.(core := Xray)], NO_SETTINGS))
    ensures AppliesAlways(FRESH, LoneConfig([ib.(core := Xray)], NO_SETTINGS), 0, GOOD)
    ensures !Applied(After(SingBoxRun(ib) + retries), LoneConfig([ib.(core := Xray)], NO_SETTINGS), now, env, moves).1
  {
    hide After, SoundState, EngineKey, OutboundsSucceed, JobOf, Keys, XrayAccounts.Bootable, SocketsOf, Applied,
         SingBoxRun, AppliesAlways, Holds, Stuck,
         Lone, NewKind;
    var switched := ib.(core := Xray);
    var config := LoneConfig([switched], NO_SETTINGS);
    SwitchedStarts(switched);
    OneInbound(switched, SHARED_XRAY_KEY, GOOD);
    OneInbound(switched, SHARED_XRAY_KEY, env);
    StuckNow(ib, config, env);
    SingBoxKey(ib);
    FreshStarts(switched);
    StuckAnyTime(After(SingBoxRun(ib)).fleet, config, 0, env, now, env, EngineKey(ib));
    StaleEngineBlocks(SingBoxRun(ib), retries, config, now, env, moves, EngineKey(ib));
  }

  lemma StuckNow(ib: Inbound, config: Config, env: Environment)
    requires ib.enabled && ib.core.SingBox? && SingBoxSupports(ib.protocol) && ib.sockets != {}
    requires JobOf(config, 0, env).groups.Keys == {SHARED_XRAY_KEY}
    requires SocketsOf(JobOf(config, 0, env).groups[SHARED_XRAY_KEY]) == ib.sockets
    ensures Stuck(After(SingBoxRun(ib)).fleet, JobOf(config, 0, env), EngineKey(ib))
  {
    hide After, EngineKey, JobOf, SocketsOf, SingBoxRun, Holds, Lone;
    var e := SingBoxListens(ib);
    SingBoxKey(ib);
    StuckByOne(After(SingBoxRun(ib)).fleet, JobOf(config, 0, env), EngineKey(ib), e);
  }

  lemma FreshStarts(ib: Inbound)
    requires Lone([ib], SHARED_XRAY_KEY) && NewKind([ib]) == Some(XrayEngine) && XrayAccounts.Bootable([ib])
    ensures AppliesAlways(FRESH, LoneConfig([ib], NO_SETTINGS), 0, GOOD)
  {
    hide EngineKey, OutboundsSucceed, JobOf, Keys, XrayAccounts.Bootable, SocketsOf, AppliesAlways, NewKind, Lone;
    var config := LoneConfig([ib], NO_SETTINGS);
    OneInbound(ib, SHARED_XRAY_KEY, GOOD);
    assert "" !in Keys([ib]);
    NoOutbounds(FRESH, config, GOOD);
    FreshSound();
    SoundIsSound(FRESH);
    AppliesAlwaysExactly(FRESH, config, 0, GOOD);
  }

  /** A sing-box inbound that is renamed and keeps its socket: the update succeeds in every schedule, and in some
      schedule the inbound is not served afterwards, because the engine with the old key still listens when the new
      child starts. */
  lemma RenameMayGoUnserved(ib: Inbound, name: string)
    requires ib.enabled && ib.protocol.Vless? && ib.core.SingBox? && ib.sockets != {} && name != ib.name
    ensures var f, job := After(SingBoxRun(ib)).fleet, JobOf(LoneConfig([ib.(name := name)], NO_SETTINGS), 0, GOOD);
            SucceedsAlways(f, job) && !ServesAlways(f, job)
  {
    hide After, SoundState, EngineKey, JobOf, Keys, SingBoxRun, Lone, SucceedsAlways, ServesAlways, Apart,
         XrayAccounts.Remembers, SocketsOf;
    var renamed := ib.(name := name);
    var key, stale := EngineKey(renamed), EngineKey(ib);
    assert key != stale by { NamesTellKeys(ib, name); }
    var e := SingBoxListens(ib);
    SingBoxKey(renamed);
    SingBoxKey(ib);
    OneInbound(renamed, key, GOOD);
    var f, job := After(SingBoxRun(ib)).fleet, JobOf(LoneConfig([renamed], NO_SETTINGS), 0, GOOD);
    AlwaysSound(SingBoxRun(ib));
    SoundIsSound(After(SingBoxRun(ib)));
    ExclusiveIsExclusive(After(SingBoxRun(ib)));
    SucceedsAlwaysExactly(f, job);
    ListeningIsAtRest(f, stale, e, ib.sockets);
    ServesAlwaysExactly(f, job);
    HeldByOld(f, job, stale, e, key, renamed);
  }

  lemma NamesTellKeys(ib: Inbound, name: string)
    requires ib.protocol.Vless? && ib.core.SingBox? && name != ib.name
    ensures EngineKey(ib.(name := name)) != EngineKey(ib)
  {
    var a, b := EngineKey(ib.(name := name)), EngineKey(ib);
    assert a[8..] == name && b[8..] == ib.name;
  }

  lemma ExclusiveIsExclusive(s: State)
    requires SoundState(s)
    ensures Exclusive(s.fleet)
  {
  }

  lemma ListeningIsAtRest(f: Fleet, key: string, e: Engine, sockets: set<string>)
    requires f.engines == map[key := e] && Sound(f) && key != SHARED_XRAY_KEY && Holds(e) == sockets != {}
    ensures AtRest(f)
  {
    assert SoundAt(f, key);
    HoldsElsewhere(key, e);
  }

  lemma HeldByOld(f: Fleet, job: Job, stale: string, e: Engine, key: string, ib: Inbound)
    requires f.engines == map[stale := e] && Holds(e) == ib.sockets != {} && key != stale && key != SHARED_XRAY_KEY
    requires job.groups == map[key := [ib]]
    ensures !Apart(f, job)
  {
    hide Holds, Keeps;
    var s :| s in ib.sockets;
    assert s in Holds(f.engines[stale]) && s in Taken(f.engines, key);
    assert s in NeedsOf(job, key);
    assert !ApartAt(f, job, key);
  }

  // ---------- the operations ----------

  class Manager {
    var engines: map<string, Engine>
    const ttOutbounds: Outbounds.Manager
    var currentConfig: Option<Config>
    var file: File
    /** Whether the last attempt to write the file failed. */
    var saveFailed: bool
    // The world: engines created and stopped.
    var created: nat
    var stopped: set<nat>

    ghost function Running(): Fleet
      reads this`engines, this`created, this`stopped
    {
      Fleet(engines, created, stopped)
    }

    ghost function View(): State
      reads this`engines, this`created, this`stopped, ttOutbounds
    {
      State(Running(), ttOutbounds.View())
    }

    /** Unless the last save failed, the file holds the last configuration whose update succeeded, without its
        master key. */
    ghost predicate OnRecord()
      reads this`currentConfig, this`file, this`saveFailed
    {
      currentConfig.Some? && !saveFailed ==> file == Holding(currentConfig.value.(masterKey := ""))
    }

    /** The manager has gone through some run. */
    ghost predicate Valid()
      reads this, ttOutbounds
    {
      (exists calls :: View() == After(calls)) && OnRecord()
    }

    /** A new process finds the file of the one before. */
    constructor (file: File)
      ensures Valid() && View() == FRESH && currentConfig == None && this.file == file
      ensures fresh(ttOutbounds)
    {
      ttOutbounds := new Outbounds.Manager();
      engines, currentConfig, this.file, saveFailed := map[], None, file, false;
      created, stopped := 0, {};
      new;
      AfterNone();
    }

    method ActiveAccounts(accounts: seq<Account>, now: int) returns (active: seq<Account>)
      ensures active == Active(accounts, now) && Unexpired(accounts, active, now)
    {
      ActiveIsUnexpired(accounts, now);
      active := [];
      for i := 0 to |accounts|
        invariant active == Active(accounts[..i], now)
      {
        assert accounts[..i + 1][..i] == accounts[..i];
        if accounts[i].expiryTime == 0 || accounts[i].expiryTime > now {
          active := active + [accounts[i]];
        }
      }
      assert accounts[..|accounts|] == accounts;
    }

    /** The first loop of Update. */
    method GroupInbounds(inbounds: seq<Inbound>, active: seq<Account>) returns (grouped: Option<Groups>)
      ensures grouped == if "" in Keys(inbounds) then None else Some(GroupsOf(inbounds, active))
    {
      var groups: Groups := map[];
      for i := 0 to |inbounds|
        invariant "" !in Keys(inbounds[..i])
        invariant groups == GroupsOf(inbounds[..i], active)
      {
        var ib := inbounds[i];
        GroupsAppend(inbounds[..i], active, ib);
        assert inbounds[..i + 1] == inbounds[..i] + [ib];
        if !ib.enabled {
          continue;
        }
        var key := EngineKey(ib);
        if key == "" {
          assert ib in inbounds;
          return None;
        }
        groups := groups[key := (if key in groups then groups[key] else []) + [Prepared(ib, active)]];
        assert groups == WithMember(GroupsOf(inbounds[..i], active), key, Prepared(ib, active));
      }
      assert inbounds[..|inbounds|] == inbounds;
      grouped := Some(groups);
    }

    /** Stopping an engine and deleting its key. */
    method StopEngine(key: string)
      requires key in engines
      modifies this`engines, this`stopped
      ensures Running() == Retire(old(Running()), key)
    {
      stopped := stopped + {engines[key].id};
      engines := engines - {key};
    }

    /** Making sure that the key holds an engine for the group. */
    method ProvideEngine(key: string, group: seq<Inbound>) returns (ok: bool)
      modifies this`engines, this`created, this`stopped
      ensures (Running(), ok) == Provide(old(Running()), key, group)
    {
      hide MatchesAll, NewKind;
      var held := key in engines;
      if held && !MatchesAll(engines[key].kind, group) {
        StopEngine(key);
        held := false;
      }
      if !held {
        var kind := NewKind(group);
        if kind == None {
          return false;
        }
        engines := engines[key := NewEngine(created, kind.value)];
        created := created + 1;
      }
      ok := true;
    }

    /** Handing a group to the engine at a key. */
    method UpdateEngine(key: string, group: seq<Inbound>, settings: Settings, conditions: Conditions) returns (ok: bool)
      requires key in engines
      modifies this`engines
      ensures var (e, done) := Handed(old(engines)[key], key, group, Taken(old(engines), key), settings, conditions);
              engines == old(engines)[key := e] && ok == done
    {
      hide Taken, XrayAccounts.Update, SingBoxSupports;
      var e := engines[key];
      if e.kind.XrayEngine? {
        var free := SocketsOf(group) !! Taken(engines, key);
        var xenv := conditions.xray.(starts := conditions.xray.starts && free);
        var (xray, done) := XrayAccounts.Update(e.xray, group, settings, xenv);
        ok := done;
        engines := engines[key := e.(xray := xray, accepted := if ok then group else e.accepted)];
      } else if !Accepts(e.kind, group) || key in conditions.rejects {
        ok := false;
      } else {
        ok := key !in conditions.noSpawn;
        var child := if ok then Starting(group[0]) else NoChild;
        engines := engines[key := e.(child := child, accepted := if ok then group else e.accepted)];
      }
    }

    /** The body of the loop over groups. */
    method VisitGroup(key: string, group: seq<Inbound>, settings: Settings, conditions: Conditions) returns (ok: bool)
      modifies this`engines, this`created, this`stopped
      ensures (Running(), ok) == Visit(old(Running()), key, group, settings, conditions)
    {
      hide Provide, Handed, Taken;
      ok := ProvideEngine(key, group);
      if ok {
        ok := UpdateEngine(key, group, settings, conditions);
      }
    }

    /** A child of the world outside takes its sockets, or exits. */
    method SettleChild(key: string)
      modifies this`engines
      ensures Running() == Settle(old(Running()), key)
    {
      if key in engines && engines[key].child.Starting? {
        var ib := engines[key].child.inbound;
        var free := ib.sockets !! Taken(engines, key);
        engines := engines[key := engines[key].(child := if free then Listening(ib) else NoChild)];
      }
    }

    /** The loop over groups, in the order of Go's map and with children settling in between, up to the first
        failure. */
    method ApplyGroups(groups: Groups, settings: Settings, conditions: Conditions, moves: seq<Move>) returns (ok: bool)
      modifies this`engines, this`created, this`stopped
      ensures (Running(), ok) == Play(old(Running()), moves, Job(groups, settings, conditions))
    {
      hide Visit, Settle;
      ghost var start, job := Running(), Job(groups, settings, conditions);
      var i := 0;
      while i < |moves|
        invariant i <= |moves| && Play(start, moves, job) == Play(Running(), moves[i..], job)
      {
        assert moves[i..][0] == moves[i] && moves[i..][1..] == moves[i + 1..];
        if moves[i].Settles? {
          SettleChild(moves[i].key);
        } else if moves[i].key in groups {
          ok := VisitGroup(moves[i].key, groups[moves[i].key], settings, conditions);
          if !ok {
            return;
          }
        }
        i := i + 1;
      }
      ok := true;
    }

    /** Stopping the engines whose key is no longer wanted, in any order. */
    method DropEngines(wanted: set<string>)
      modifies this`engines, this`stopped
      ensures Running() == DropStale(old(Running()), wanted)
    {
      ghost var f := Running();
      var gone, rest := {}, engines.Keys;
      DropNone(f);
      while rest != {}
        invariant rest <= f.engines.Keys && rest !! gone && gone == f.engines.Keys - rest - wanted
        invariant Running() == Drop(f, gone)
        decreases rest
      {
        var key := AnyOf(rest);
        rest := rest - {key};
        if key !in wanted {
          DropOneMore(f, gone, key);
          StopEngine(key);
          gone := gone + {key};
        }
      }
    }

    /** Update as far as saving. */
    method ApplyConfig(config: Config, now: int, env: Environment, moves: seq<Move>) returns (ok: bool)
      modifies this`engines, this`created, this`stopped, ttOutbounds
      ensures (View(), ok) == Applied(old(View()), config, now, env, moves)
    {
      hide Play, DropStale, Outbounds.Sync;
      var active := ActiveAccounts(config.accounts, now);
      var grouped := GroupInbounds(config.inbounds, active);
      if grouped == None || !env.certificatesOk {
        return false;
      }
      assert Job(grouped.value, config.settings, env.engines) == JobOf(config, now, env);
      assert grouped.value.Keys == Keys(config.inbounds);
      ok := ttOutbounds.SyncOutbounds(config.settings.outbounds, env.outboundFails);
      if ok {
        ok := ApplyGroups(grouped.value, config.settings, env.engines, moves);
        if ok {
          DropEngines(grouped.value.Keys);
        }
      }
    }

    /** savePersistedConfig. */
    method SaveConfig(config: Config, save: Save) returns (ok: bool)
      modifies this`file, this`saveFailed
      ensures ok == save.Saves? && saveFailed == !ok
      ensures file == if ok then Holding(config.(masterKey := "")) else save.left
    {
      ok := save.Saves?;
      saveFailed := !ok;
      file := if ok then Holding(config.(masterKey := "")) else save.left;
    }

    /** Update. What it leaves to chance is the schedule: it must succeed in every one, and can succeed in some, exactly
        under the conditions stated before. When it succeeds the engine keys are exactly those of the enabled
        inbounds, each key holds the right kind of engine, every engine has accepted its whole group, every enabled
        inbound is served with its own accounts or with those that have not expired, the outbound processes have
        converged, and the configuration is on record. When it fails the record is the old one, except
        that a failed save leaves the file in an unknown state. */
    method Update(config: Config, now: int, env: Environment, moves: seq<Move>) returns (ok: bool)
      requires Valid() && Schedule(moves, Keys(config.inbounds))
      modifies this, ttOutbounds
      ensures Valid()
      ensures var (after, applied) := Applied(old(View()), config, now, env, moves);
              View() == after && ok == (applied && env.save.Saves?)
      ensures MustApply(old(View()), config, now, env) && env.save.Saves? ==> ok
      ensures ok ==> MayApply(old(View()), config, now, env)
      ensures !env.certificatesOk || (exists ib :: ib in config.inbounds && ib.enabled && Homeless(ib)) ==>
                !ok && View() == old(View()) && file == old(file) && currentConfig == old(currentConfig)
      ensures ok ==> Converged(View(), config, now)
      ensures ok ==> InboundsServed(engines, config, now)
      ensures ok ==>
                (ttOutbounds.View(), true) ==
                  Outbounds.Sync(old(ttOutbounds.View()), config.settings.outbounds, env.outboundFails)
      ensures currentConfig == if ok then Some(config) else old(currentConfig)
      ensures if Applied(old(View()), config, now, env, moves).1 then
                saveFailed == !ok && file == if ok then Holding(config.(masterKey := "")) else env.save.left
              else saveFailed == old(saveFailed) && file == old(file)
    {
      hide Applied, MustApply, MayApply, Converged, InboundsServed, Homeless, Outbounds.Sync;
      ghost var was := View();
      UpdateMeans(was, config, now, env, moves);
      RefusedUntouched(was, config, now, env, moves);
      ok := ApplyConfig(config, now, env, moves);
      if !ok {
        return;
      }
      ok := SaveConfig(config, env.save);
      if ok {
        currentConfig := Some(config);
      }
    }

    /** RestoreLastConfig: nothing to restore without a file, an error if it cannot be read, and otherwise an update. */
    method RestoreLastConfig(now: int, env: Environment, moves: seq<Move>) returns (restored: bool, ok: bool)
      requires Valid() && (file.Holding? ==> Schedule(moves, Keys(file.config.inbounds)))
      modifies this, ttOutbounds
      ensures Valid()
      ensures restored <==>
                old(file).Holding? && Applied(old(View()), old(file).config, now, env, moves).1 && env.save.Saves?
      ensures ok <==> restored || old(file).Missing?
      ensures !old(file).Holding? ==> View() == old(View()) && currentConfig == old(currentConfig) && file == old(file)
      ensures restored ==> currentConfig == Some(old(file).config) && Converged(View(), old(file).config, now)
      ensures restored ==> InboundsServed(engines, old(file).config, now)
    {
      hide Applied, MustApply, MayApply, Converged, InboundsServed;
      if file.Missing? {
        return false, true;
      }
      if file.Unreadable? {
        return false, false;
      }
      ok := Update(file.config, now, env, moves);
      restored := ok;
    }
  }

  /** The engines are those of the configuration, and each runs its group. */
  ghost predicate Converged(s: State, config: Config, now: int) {
    && s.fleet.engines.Keys == Keys(config.inbounds)
    && forall key :: key in s.fleet.engines ==>
         Runs(s.fleet.engines[key], key, GroupFor(config, now, key), config.settings)
  }

  /** The i-th inbound is served: the engine of its key is of its kind and has accepted, at its rank there, a copy of
      it that holds its own accounts, or if it has none the accounts of the configuration that have not expired. */
  ghost predicate ServedIn(engines: map<string, Engine>, config: Config, now: int, i: nat)
    requires i < |config.inbounds|
  {
    var ib := config.inbounds[i];
    var key, r := EngineKey(ib), Rank(config.inbounds, i, EngineKey(ib));
    && key in engines && r < |engines[key].accepted| == Rank(config.inbounds, |config.inbounds|, key)
    && engines[key].kind == (if ib.protocol.TrustTunnel? then TrustTunnelEngine
         else if RunsInXray(ib) then XrayEngine else SingBoxEngine)
    && var served := engines[key].accepted[r];
       served.(accounts := ib.accounts) == ib &&
       if |ib.accounts| > 0 then served.accounts == ib.accounts
       else Unexpired(config.accounts, served.accounts, now)
  }

  ghost predicate InboundsServed(engines: map<string, Engine>, config: Config, now: int) {
    forall i :: 0 <= i < |config.inbounds| && config.inbounds[i].enabled ==> ServedIn(engines, config, now, i)
  }

  lemma ConvergedServes(s: State, config: Config, now: int)
    requires Converged(s, config, now)
    ensures InboundsServed(s.fleet.engines, config, now)
  {
    hide EngineKey, Active, Rank, GroupOf, Unexpired, Runs;
    var active := Active(config.accounts, now);
    ActiveIsUnexpired(config.accounts, now);
    forall i | 0 <= i < |config.inbounds| && config.inbounds[i].enabled
      ensures ServedIn(s.fleet.engines, config, now, i)
    {
      var ib := config.inbounds[i];
      var key := EngineKey(ib);
      assert key in Keys(config.inbounds);
      KindServes(ib);
      RunsAccepted(s.fleet.engines[key], key, GroupFor(config, now, key), config.settings);
      GroupMembers(config.inbounds, active, i);
    }
  }

  lemma KindServes(ib: Inbound)
    ensures KindOfKey(EngineKey(ib)) ==
              if ib.protocol.TrustTunnel? then TrustTunnelEngine else if RunsInXray(ib) then XrayEngine
                else SingBoxEngine
  {
    KeyShapes(ib);
    FirstLetters(EngineKey(ib));
  }

  lemma RunsAccepted(e: Engine, key: string, group: seq<Inbound>, settings: Settings)
    requires Runs(e, key, group, settings)
    ensures e.accepted == group && e.kind == KindOfKey(key)
  {
  }

  /** No engine takes the inbound: neither its protocol nor its core chooses one. */
  ghost predicate Homeless(ib: Inbound) {
    !ib.protocol.TrustTunnel? && !RunsInXray(ib) && !RunsInSingBox(ib)
  }

  /** With an enabled inbound that no engine takes, or without its certificates, an update touches nothing. */
  lemma RefusedUntouched(s: State, config: Config, now: int, env: Environment, moves: seq<Move>)
    ensures !env.certificatesOk || (exists ib :: ib in config.inbounds && ib.enabled && Homeless(ib)) ==>
              Applied(s, config, now, env, moves) == (s, false)
  {
    hide EngineKey, Homeless, Play, DropStale, Outbounds.Sync;
    if ib :| ib in config.inbounds && ib.enabled && Homeless(ib) {
      NoKey(ib);
      assert EngineKey(ib) in Keys(config.inbounds);
    }
  }

  lemma NoKey(ib: Inbound)
    requires Homeless(ib)
    ensures EngineKey(ib) == ""
  {
    SharesEngineExactly(ib, ib);
  }

  /** What one update of a manager with a history means. */
  lemma UpdateMeans(s: State, config: Config, now: int, env: Environment, moves: seq<Move>)
    requires (exists calls :: s == After(calls)) && Schedule(moves, Keys(config.inbounds))
    ensures exists calls :: Applied(s, config, now, env, moves).0 == After(calls)
    ensures MustApply(s, config, now, env) ==> Applied(s, config, now, env, moves).1
    ensures Applied(s, config, now, env, moves).1 ==>
              MayApply(s, config, now, env) && Converged(Applied(s, config, now, env, moves).0, config, now) &&
              InboundsServed(Applied(s, config, now, env, moves).0.fleet.engines, config, now) &&
              (Applied(s, config, now, env, moves).0.outbounds, true) ==
                Outbounds.Sync(s.outbounds, config.settings.outbounds, env.outboundFails)
  {
    hide Applied, MustApply, MayApply, Converged, InboundsServed, After, Outbounds.Sync;
    var calls :| s == After(calls);
    AfterMore(calls, UpdateCall(config, now, env, moves));
    AlwaysSound(calls);
    SoundIsSound(s);
    AppliesAlwaysExactly(s, config, now, env);
    AppliesSometimesExactly(s, config, now, env);
    if Applied(s, config, now, env, moves).1 {
      AppliedConverges(s, config, now, env, moves);
      ConvergedServes(Applied(s, config, now, env, moves).0, config, now);
    }
  }

  lemma AppliedConverges(s: State, config: Config, now: int, env: Environment, moves: seq<Move>)
    requires Sound(s.fleet) && Schedule(moves, Keys(config.inbounds)) && Applied(s, config, now, env, moves).1
    ensures Converged(Applied(s, config, now, env, moves).0, config, now)
    ensures (Applied(s, config, now, env, moves).0.outbounds, true) ==
              Outbounds.Sync(s.outbounds, config.settings.outbounds, env.outboundFails)
  {
    hide Sound, Posed, Play, Schedule, DropStale, Runs, JobOf, Outbounds.Sync;
    var job := JobOf(config, now, env);
    JobPosed(config, now, env);
    JobParts(config, now, env);
    PlayRuns(s.fleet, moves, Keys(config.inbounds), job);
    var f := Play(s.fleet, moves, job).0;
    forall key
      ensures key in DropStale(f, Keys(config.inbounds)).engines <==> key in Keys(config.inbounds)
      ensures key in Keys(config.inbounds) ==>
                key in f.engines && DropStale(f, Keys(config.inbounds)).engines[key] == f.engines[key]
    {
      DroppedAt(f, Keys(config.inbounds), key);
      assert key in job.groups ==> RunsAt(f, job, key);
    }
  }
}
