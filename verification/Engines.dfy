/** The map of running engines of node/internal/engine/engine.go, and what an update does to it while Go visits
    the groups in any order and the child processes take their sockets in their own time. */
module Engines {
  import opened Common
  import opened Configs
  import opened Groups
  import XrayAccounts

  /** The child process of a sing-box or TrustTunnel engine. Spawning it does not wait until it listens. A child
      that finds one of its sockets taken exits, and nothing restarts it. */
  datatype Child = NoChild | Starting(inbound: Inbound) | Listening(inbound: Inbound)

  /** An engine object; ids are given out in order of creation, and `accepted` is the group of the last update that
      succeeded. An Xray engine has no child: its instance runs in the process of the manager. */
  datatype Engine = Engine(id: nat, kind: Kind, xray: XrayAccounts.Engine, child: Child, accepted: seq<Inbound>)

  /** The manager's map, the number of engines ever created, and the ids of those stopped. */
  datatype Fleet = Fleet(engines: map<string, Engine>, created: nat, stopped: set<nat>)

  const NO_ENGINES: Fleet := Fleet(map[], 0, {})

  /** What the Xray engine meets, the keys whose engines refuse their group, and the keys at which the operating
      system does not start the child. Whether sockets are free is not part of it. */
  datatype Conditions = Conditions(xray: XrayAccounts.Environment, rejects: set<string>, noSpawn: set<string>)

  datatype Job = Job(groups: Groups, settings: Settings, env: Conditions)

  // ---------- sockets ----------

  /** The sockets of an Xray instance. */
  function SocketsOf(inbounds: seq<Inbound>): set<string> {
    set ib, s | ib in inbounds && XrayAccounts.Emitted(ib) && s in ib.sockets :: s
  }

  function Holds(e: Engine): set<string> {
    if e.kind.XrayEngine? then (if e.xray.live then SocketsOf(e.xray.lastConfigs) else {})
    else if e.child.Listening? then e.child.inbound.sockets
    else {}
  }

  /** The sockets held at other keys. */
  function Taken(engines: map<string, Engine>, key: string): set<string> {
    set k, s | k in engines && k != key && s in Holds(engines[k]) :: s
  }

  // ---------- one group ----------

  function Retire(f: Fleet, key: string): Fleet
    requires key in f.engines
  {
    Fleet(f.engines - {key}, f.created, f.stopped + {f.engines[key].id})
  }

  function NewEngine(id: nat, kind: Kind): Engine {
    Engine(id, kind, XrayAccounts.NEW_ENGINE, NoChild, [])
  }

  /** An engine that matches the group is kept, one that does not is stopped, and a missing one is created. */
  function Provide(f: Fleet, key: string, group: seq<Inbound>): (result: (Fleet, bool))
    ensures result.1 ==> key in result.0.engines
  {
    if key in f.engines && MatchesAll(f.engines[key].kind, group) then (f, true) else
      var f' := if key in f.engines then Retire(f, key) else f;
      match NewKind(group)
      case None => (f', false)
      case Some(kind) => (Fleet(f'.engines[key := NewEngine(f'.created, kind)], f'.created + 1, f'.stopped), true)
  }

  /** The engine after it was handed the group. An Xray engine that restarts closes its own instance first and then
      needs its sockets; the others kill their child and spawn a new one, unless they refuse the group before. */
  function Handed(e: Engine, key: string, group: seq<Inbound>, taken: set<string>, settings: Settings, env: Conditions)
    : (Engine, bool)
  {
    if e.kind.XrayEngine? then
      var (xray, ok) := XrayAccounts.Update(
        e.xray, group, settings, env.xray.(starts := env.xray.starts && SocketsOf(group) !! taken));
      (e.(xray := xray, accepted := if ok then group else e.accepted), ok)
    else if !Accepts(e.kind, group) || key in env.rejects then (e, false)
    else if key in env.noSpawn then (e.(child := NoChild), false)
    else (e.(child := Starting(group[0]), accepted := group), true)
  }

  function Visit(f: Fleet, key: string, group: seq<Inbound>, settings: Settings, env: Conditions): (Fleet, bool) {
    var (f', provided) := Provide(f, key, group);
    if !provided then (f', false) else
      var (e, ok) := Handed(f'.engines[key], key, group, Taken(f'.engines, key), settings, env);
      (f'.(engines := f'.engines[key := e]), ok)
  }

  // ---------- schedules ----------

  /** A starting child listens if its sockets are free, and exits otherwise. */
  function Settle(f: Fleet, key: string): Fleet {
    if key in f.engines && f.engines[key].child.Starting? then
      var ib := f.engines[key].child.inbound;
      var child := if ib.sockets !! Taken(f.engines, key) then Listening(ib) else NoChild;
      f.(engines := f.engines[key := f.engines[key].(child := child)])
    else f
  }

  /** A child that crashes. */
  function Exit(f: Fleet, key: string): Fleet {
    if key in f.engines then f.(engines := f.engines[key := f.engines[key].(child := NoChild)]) else f
  }

  datatype Move = Visits(key: string) | Settles(key: string)

  /** Each key is visited once, in any order, and children settle in between. */
  predicate Schedule(moves: seq<Move>, keys: set<string>) {
    if moves == [] then keys == {}
    else match moves[0]
      case Visits(key) => key in keys && Schedule(moves[1..], keys - {key})
      case Settles(_) => Schedule(moves[1..], keys)
  }

  function Step(f: Fleet, m: Move, job: Job): (Fleet, bool) {
    match m
    case Visits(key) => if key in job.groups then Visit(f, key, job.groups[key], job.settings, job.env) else (f, true)
    case Settles(key) => (Settle(f, key), true)
  }

  /** The loop over the groups, up to the first failure. */
  function Play(f: Fleet, moves: seq<Move>, job: Job): (Fleet, bool)
    decreases moves
  {
    if moves == [] then (f, true) else
      var (f', ok) := Step(f, moves[0], job);
      if ok then Play(f', moves[1..], job) else (f', false)
  }

  /** The loop that stops the engines whose key is no longer wanted. */
  function DropStale(f: Fleet, wanted: set<string>): Fleet {
    Drop(f, f.engines.Keys - wanted)
  }

  function Drop(f: Fleet, gone: set<string>): Fleet {
    Fleet(f.engines - gone, f.created, f.stopped + set k | k in f.engines && k in gone :: f.engines[k].id)
  }

  // ---------- no engine is lost ----------

  /** Every engine ever created is in the map under one key, or was stopped. */
  ghost predicate Tracked(f: Fleet) {
    && (forall id: nat :: id < f.created ==> (id in f.stopped <==> !HasId(f, id)))
    && (forall key :: key in f.engines ==> f.engines[key].id < f.created)
    && (forall k, l :: k in f.engines && l in f.engines && k != l ==> f.engines[k].id != f.engines[l].id)
    && (forall id :: id in f.stopped ==> id < f.created)
  }

  ghost predicate HasId(f: Fleet, id: nat) {
    exists key :: key in f.engines && f.engines[key].id == id
  }

  lemma RetireTracked(f: Fleet, key: string)
    requires Tracked(f) && key in f.engines
    ensures Tracked(Retire(f, key))
  {
    var g := Retire(f, key);
    forall id: nat | id < g.created ensures id in g.stopped <==> !HasId(g, id) {
      if id != f.engines[key].id && id !in f.stopped {
        var k :| k in f.engines && f.engines[k].id == id;
        assert k in g.engines && g.engines[k].id == id;
      }
    }
  }

  lemma CreateTracked(f: Fleet, key: string, kind: Kind)
    requires Tracked(f) && key !in f.engines
    ensures Tracked(Fleet(f.engines[key := NewEngine(f.created, kind)], f.created + 1, f.stopped))
  {
    var g := Fleet(f.engines[key := NewEngine(f.created, kind)], f.created + 1, f.stopped);
    forall id: nat | id < g.created ensures id in g.stopped <==> !HasId(g, id) {
      if id == f.created {
        assert g.engines[key].id == id;
      } else if id !in f.stopped {
        var k :| k in f.engines && f.engines[k].id == id;
        assert k in g.engines && g.engines[k].id == id;
      }
    }
  }

  lemma ReplaceTracked(f: Fleet, key: string, e: Engine)
    requires Tracked(f) && key in f.engines && e.id == f.engines[key].id
    ensures Tracked(f.(engines := f.engines[key := e]))
  {
    var g := f.(engines := f.engines[key := e]);
    forall id: nat | id < g.created ensures HasId(f, id) <==> HasId(g, id) {
      if k :| k in f.engines && f.engines[k].id == id {
        assert k in g.engines && g.engines[k].id == id;
      }
      if k :| k in g.engines && g.engines[k].id == id {
        assert k in f.engines && f.engines[k].id == id;
      }
    }
  }

  lemma ProvideTracked(f: Fleet, key: string, group: seq<Inbound>)
    requires Tracked(f)
    ensures Tracked(Provide(f, key, group).0)
  {
    hide Tracked, MatchesAll, NewKind;
    if !(key in f.engines && MatchesAll(f.engines[key].kind, group)) {
      var f' := if key in f.engines then Retire(f, key) else f;
      if key in f.engines {
        RetireTracked(f, key);
      }
      if NewKind(group).Some? {
        CreateTracked(f', key, NewKind(group).value);
      }
    }
  }

  lemma VisitTracked(f: Fleet, key: string, group: seq<Inbound>, settings: Settings, env: Conditions)
    requires Tracked(f)
    ensures Tracked(Visit(f, key, group, settings, env).0)
  {
    hide Tracked, Provide, Taken, XrayAccounts.Update;
    ProvideTracked(f, key, group);
    var (f', provided) := Provide(f, key, group);
    if provided {
      ReplaceTracked(f', key, Handed(f'.engines[key], key, group, Taken(f'.engines, key), settings, env).0);
    }
  }

  lemma SettleTracked(f: Fleet, key: string)
    requires Tracked(f)
    ensures Tracked(Settle(f, key))
  {
    hide Tracked, Taken;
    if key in f.engines && f.engines[key].child.Starting? {
      ReplaceTracked(f, key, Settle(f, key).engines[key]);
    }
  }

  lemma DropNone(f: Fleet)
    ensures Drop(f, {}) == f
  {
  }

  lemma DropOneMore(f: Fleet, gone: set<string>, key: string)
    requires key in f.engines && key !in gone
    ensures key in Drop(f, gone).engines && Drop(f, gone + {key}) == Retire(Drop(f, gone), key)
  {
    var a, b := set k | k in f.engines && k in gone :: f.engines[k].id,
      set k | k in f.engines && k in gone + {key} :: f.engines[k].id;
    assert b == a + {f.engines[key].id};
  }

  lemma DropTracked(f: Fleet, wanted: set<string>)
    requires Tracked(f)
    ensures Tracked(DropStale(f, wanted))
  {
    var g := DropStale(f, wanted);
    forall id: nat | id < g.created ensures id in g.stopped <==> !HasId(g, id) {
      if HasId(f, id) {
        var k :| k in f.engines && f.engines[k].id == id;
        assert k in wanted ==> k in g.engines && g.engines[k].id == id;
      }
    }
  }

  // ---------- what one visit does ----------

  ghost predicate Grouping(key: string, group: seq<Inbound>) {
    group != [] && Keyed(group, key) && key != ""
  }

  ghost predicate Posed(job: Job) {
    forall key :: key in job.groups ==> Grouping(key, job.groups[key])
  }

  function KindOf(held: Option<Engine>): Option<Kind> {
    if held.Some? then Some(held.value.kind) else None
  }

  /** The invariant of every engine in the map: its kind is possible for its key, an Xray engine remembers something
      that an instance has started with, and only the other kinds, at their own keys, have a child. */
  ghost predicate SoundEngine(key: string, e: Engine) {
    && Possible(key, Some(e.kind))
    && XrayAccounts.Remembers(e.xray)
    && (key == SHARED_XRAY_KEY ==> e.child == NoChild)
  }

  ghost predicate SoundAt(f: Fleet, key: string) {
    key in f.engines ==> SoundEngine(key, f.engines[key])
  }

  ghost predicate Sound(f: Fleet) {
    forall key :: SoundAt(f, key)
  }

  ghost predicate SameElsewhere(f: Fleet, g: Fleet, key: string) {
    forall k :: k != key ==> Get(g.engines, k) == Get(f.engines, k)
  }

  lemma VisitElsewhereKeeps(f: Fleet, key: string, group: seq<Inbound>, settings: Settings, env: Conditions)
    ensures SameElsewhere(f, Visit(f, key, group, settings, env).0, key)
  {
    hide MatchesAll, NewKind, Taken, Handed;
  }

  lemma SameTaken(a: map<string, Engine>, b: map<string, Engine>, key: string)
    requires forall k :: k != key ==> Get(a, k) == Get(b, k)
    ensures Taken(a, key) == Taken(b, key)
  {
    hide Holds;
    forall s ensures s in Taken(a, key) <==> s in Taken(b, key) {
      if s in Taken(a, key) {
        var k :| k in a && k != key && s in Holds(a[k]);
        assert Get(b, k) == Some(a[k]);
      }
      if s in Taken(b, key) {
        var k :| k in b && k != key && s in Holds(b[k]);
        assert Get(a, k) == Some(b[k]);
      }
    }
  }

  /** The engine that a group gets, and what it is then handed. */
  lemma VisitIsHanded(f: Fleet, key: string, group: seq<Inbound>, settings: Settings, env: Conditions)
    returns (e: Engine)
    ensures var (g, ok) := Visit(f, key, group, settings, env);
            if Chosen(KindOf(Get(f.engines, key)), group) == None then !ok && key !in g.engines
            else key in g.engines && (g.engines[key], ok) == Handed(e, key, group, Taken(f.engines, key), settings, env)
    ensures key in f.engines && MatchesAll(f.engines[key].kind, group) ==> e == f.engines[key]
    ensures !(key in f.engines && MatchesAll(f.engines[key].kind, group)) && NewKind(group).Some? ==>
              e.kind == NewKind(group).value && e.xray == XrayAccounts.NEW_ENGINE && e.child == NoChild &&
                e.accepted == []
  {
    hide MatchesAll, NewKind, Taken, Handed;
    var (f', provided) := Provide(f, key, group);
    e := if provided then f'.engines[key] else NewEngine(0, XrayEngine);
    SameTaken(f.engines, f'.engines, key);
  }

  /** What it takes to spawn a child for the group: the engine does not refuse it, and the system starts a process. */
  predicate Spawns(key: string, group: seq<Inbound>, env: Conditions) {
    Accepts(KindOfKey(key), group) && key !in env.rejects && key !in env.noSpawn
  }

  lemma MatchesElsewhere(key: string, group: seq<Inbound>)
    requires Grouping(key, group) && key != SHARED_XRAY_KEY
    ensures MatchesAll(KindOfKey(key), group)
  {
    forall ib | ib in group ensures Matches(KindOfKey(key), ib) {
      KeyShapes(ib);
      FirstLetters(key);
    }
  }

  /** Outside the shared key neither the engine that holds the key nor any other engine has a say in the outcome. */
  lemma VisitElsewhere(f: Fleet, key: string, group: seq<Inbound>, settings: Settings, env: Conditions)
    requires Grouping(key, group) && key != SHARED_XRAY_KEY && SoundAt(f, key)
    ensures var (g, ok) := Visit(f, key, group, settings, env);
            && (ok <==> Spawns(key, group, env))
            && key in g.engines && g.engines[key].kind == KindOfKey(key) && SoundEngine(key, g.engines[key])
            && (ok ==> g.engines[key].child == Starting(group[0]) && g.engines[key].accepted == group)
            && (!ok ==> g.engines[key].child == NoChild || Get(g.engines, key) == Get(f.engines, key))
  {
    hide Taken, Accepts, XrayAccounts.Update, MatchesAll, NewKind, XrayAccounts.Remembers;
    MatchesElsewhere(key, group);
    ChosenElsewhere(KindOf(Get(f.engines, key)), group, key);
    NewKindIsPossible(group, key);
    FreshRemembers();
    var e := VisitIsHanded(f, key, group, settings, env);
  }

  lemma FreshRemembers()
    ensures XrayAccounts.Remembers(XrayAccounts.NEW_ENGINE)
  {
  }

  /** The running Xray engine takes the hot path with this group. */
  predicate Keeps(held: Option<Engine>, group: seq<Inbound>, settings: Settings) {
    held.Some? && held.value.kind.XrayEngine? && XrayAccounts.Hot(held.value.xray, group, settings)
  }

  /** An Xray instance can be started for the group, as far as sockets allow: without an Xray engine at the key the
      first inbound must name one. */
  predicate Starts(held: Option<Engine>, group: seq<Inbound>, env: Conditions) {
    && (KindOf(held) == Some(XrayEngine) || NewKind(group) == Some(XrayEngine))
    && env.xray.starts && XrayAccounts.Bootable(group)
  }

  /** An Xray engine that has accepted the group. */
  ghost predicate Recalls(e: Engine, group: seq<Inbound>, settings: Settings) {
    && e.kind == XrayEngine && e.accepted == group
    && e.xray.instance && e.xray.lastConfigs == XrayAccounts.Stripped(group) && e.xray.lastSettings == settings
  }

  /** What the shared group needs at the moment of its visit. */
  predicate SharedSucceeds(held: Option<Engine>, group: seq<Inbound>, taken: set<string>, settings: Settings,
      env: Conditions)
  {
    if Keeps(held, group, settings) then XrayAccounts.DialsSucceed(group, env.xray.noDial)
    else Starts(held, group, env) && SocketsOf(group) !! taken
  }

  lemma HandedXray(e: Engine, key: string, group: seq<Inbound>, taken: set<string>, settings: Settings, env: Conditions)
    requires e.kind == XrayEngine && group != [] && XrayAccounts.Remembers(e.xray)
    ensures var (e', ok) := Handed(e, key, group, taken, settings, env);
            && e' == e.(xray := e'.xray, accepted := e'.accepted) && XrayAccounts.Remembers(e'.xray)
            && (ok ==> Recalls(e', group, settings))
            && if Keeps(Some(e), group, settings) then
                 (ok <==> XrayAccounts.DialsSucceed(group, env.xray.noDial)) &&
                 Keeps(Some(e'), group, settings) && e'.xray.live == e.xray.live &&
                   e'.xray.lastConfigs == e.xray.lastConfigs
               else
                 (ok <==> env.xray.starts && XrayAccounts.Bootable(group) && SocketsOf(group) !! taken) &&
                 e'.xray.live == ok &&
                 (!ok ==> !Keeps(Some(e'), group, settings))
  {
    hide XrayAccounts.Update, XrayAccounts.Bootable, XrayAccounts.DialsSucceed, XrayAccounts.Remembers, SocketsOf;
    var xenv := env.xray.(starts := env.xray.starts && SocketsOf(group) !! taken);
    XrayAccounts.UpdateInstance(e.xray, group, settings, xenv);
    XrayAccounts.UpdateSucceedsExactly(e.xray, group, settings, xenv);
    XrayAccounts.UpdateRemembers(e.xray, group, settings, xenv);
  }

  /** The engine at the shared key after a visit. */
  ghost predicate AfterShared(held: Option<Engine>, after: Option<Engine>, ok: bool, group: seq<Inbound>,
      settings: Settings)
  {
    && (after.Some? ==> SoundEngine(SHARED_XRAY_KEY, after.value))
    && (ok ==> after.Some? && Recalls(after.value, group, settings))
    && if Keeps(held, group, settings) then
         Keeps(after, group, settings) && after.value.xray.live == held.value.xray.live
       else
         && (ok ==> after.value.xray.live)
         && (!ok ==> !Keeps(after, group, settings) && (after.Some? ==> Holds(after.value) == {}))
  }

  lemma SharedByXray(f: Fleet, group: seq<Inbound>, settings: Settings, env: Conditions)
    requires Grouping(SHARED_XRAY_KEY, group) && SoundAt(f, SHARED_XRAY_KEY)
    requires Chosen(KindOf(Get(f.engines, SHARED_XRAY_KEY)), group) == Some(XrayEngine)
    ensures var (g, ok) := Visit(f, SHARED_XRAY_KEY, group, settings, env);
            var held := Get(f.engines, SHARED_XRAY_KEY);
            && (ok <==> SharedSucceeds(held, group, Taken(f.engines, SHARED_XRAY_KEY), settings, env))
            && AfterShared(held, Get(g.engines, SHARED_XRAY_KEY), ok, group, settings)
  {
    hide Taken, SocketsOf, Handed, XrayAccounts.Bootable, XrayAccounts.Remembers, NewKind, MatchesAll, Visit, Keyed;
    var held := Get(f.engines, SHARED_XRAY_KEY);
    ChosenAtShared(KindOf(held), group);
    SharedGroup(group);
    FreshRemembers();
    var e := VisitIsHanded(f, SHARED_XRAY_KEY, group, settings, env);
    HandedXray(e, SHARED_XRAY_KEY, group, Taken(f.engines, SHARED_XRAY_KEY), settings, env);
  }

  lemma SharedByOther(f: Fleet, group: seq<Inbound>, settings: Settings, env: Conditions)
    requires Grouping(SHARED_XRAY_KEY, group) && SoundAt(f, SHARED_XRAY_KEY)
    requires Chosen(KindOf(Get(f.engines, SHARED_XRAY_KEY)), group) != Some(XrayEngine)
    ensures var (g, ok) := Visit(f, SHARED_XRAY_KEY, group, settings, env);
            !ok && !Starts(Get(f.engines, SHARED_XRAY_KEY), group, env) &&
              !Keeps(Get(f.engines, SHARED_XRAY_KEY), group, settings) &&
            AfterShared(Get(f.engines, SHARED_XRAY_KEY), Get(g.engines, SHARED_XRAY_KEY), ok, group, settings)
  {
    hide Taken, SocketsOf, XrayAccounts.Update, XrayAccounts.Remembers, NewKind, MatchesAll, Visit, Keyed,
         SingBoxSupports;
    var held := Get(f.engines, SHARED_XRAY_KEY);
    ChosenAtShared(KindOf(held), group);
    SharedGroup(group);
    NewKindIsPossible(group, SHARED_XRAY_KEY);
    FreshRemembers();
    var e := VisitIsHanded(f, SHARED_XRAY_KEY, group, settings, env);
  }

  /** At the shared key an Xray engine that is kept needs to be dialled, and one that starts needs free sockets. */
  lemma VisitShared(f: Fleet, group: seq<Inbound>, settings: Settings, env: Conditions)
    requires Grouping(SHARED_XRAY_KEY, group) && SoundAt(f, SHARED_XRAY_KEY)
    ensures var (g, ok) := Visit(f, SHARED_XRAY_KEY, group, settings, env);
            var held := Get(f.engines, SHARED_XRAY_KEY);
            && (ok <==> SharedSucceeds(held, group, Taken(f.engines, SHARED_XRAY_KEY), settings, env))
            && AfterShared(held, Get(g.engines, SHARED_XRAY_KEY), ok, group, settings)
  {
    hide Visit, AfterShared, Starts, Keeps, Taken;
    if Chosen(KindOf(Get(f.engines, SHARED_XRAY_KEY)), group) == Some(XrayEngine) {
      SharedByXray(f, group, settings, env);
    } else {
      SharedByOther(f, group, settings, env);
    }
  }

  // ---------- along a schedule ----------

  lemma SettleElsewhereKeeps(f: Fleet, key: string)
    ensures SameElsewhere(f, Settle(f, key), key)
  {
    hide Taken;
  }

  /** What a settled child can be. */
  lemma SettleAt(f: Fleet, key: string)
    ensures key in f.engines <==> key in Settle(f, key).engines
    ensures key in f.engines ==>
              var e := f.engines[key];
              Settle(f, key).engines[key] ==
                if !e.child.Starting? then e
                else e.(child := if e.child.inbound.sockets !! Taken(f.engines, key) then Listening(e.child.inbound)
                  else NoChild)
  {
    hide Taken;
  }

  lemma SettleSound(f: Fleet, key: string, k: string)
    requires SoundAt(f, k)
    ensures SoundAt(Settle(f, key), k)
  {
    hide Taken, Settle, Possible, XrayAccounts.Remembers;
    SettleAt(f, key);
    SettleElsewhereKeeps(f, key);
    assert k != key ==> Get(Settle(f, key).engines, k) == Get(f.engines, k);
  }

  lemma VisitSound(f: Fleet, key: string, group: seq<Inbound>, settings: Settings, env: Conditions, k: string)
    requires Grouping(key, group) && SoundAt(f, key) && SoundAt(f, k)
    ensures SoundAt(Visit(f, key, group, settings, env).0, k)
  {
    hide Visit, SoundEngine, Recalls, Holds, Keeps, Spawns, SharedSucceeds;
    VisitElsewhereKeeps(f, key, group, settings, env);
    if k != key {
      assert Get(Visit(f, key, group, settings, env).0.engines, k) == Get(f.engines, k);
    } else if key == SHARED_XRAY_KEY {
      VisitShared(f, group, settings, env);
    } else {
      VisitElsewhere(f, key, group, settings, env);
    }
  }

  lemma StepSound(f: Fleet, m: Move, job: Job)
    requires Sound(f) && Posed(job)
    ensures Sound(Step(f, m, job).0)
  {
    hide Visit, Settle, SoundAt;
    forall k ensures SoundAt(Step(f, m, job).0, k) {
      if m.Settles? {
        SettleSound(f, m.key, k);
      } else if m.key in job.groups {
        VisitSound(f, m.key, job.groups[m.key], job.settings, job.env, k);
      }
    }
  }

  lemma {:induction false} PlaySound(f: Fleet, moves: seq<Move>, job: Job)
    requires Sound(f) && Posed(job)
    ensures Sound(Play(f, moves, job).0)
    decreases moves
  {
    hide Sound, Step;
    if moves != [] {
      StepSound(f, moves[0], job);
      PlaySound(Step(f, moves[0], job).0, moves[1..], job);
    }
  }

  /** The inbounds that a child at the key may come to serve during the job. */
  ghost function Wanted(f: Fleet, job: Job, key: string): set<Inbound> {
    var pending := if key in f.engines && f.engines[key].child.Starting? then {f.engines[key].child.inbound} else {};
    if key in job.groups && job.groups[key] != [] then pending + {job.groups[key][0]} else pending
  }

  ghost predicate ChildFrom(child: Child, wanted: set<Inbound>) {
    child.NoChild? || child.inbound in wanted
  }

  predicate Pending(held: Option<Engine>) {
    held.Some? && held.value.child.Starting?
  }

  /** How far the engine at a key can have come from f while the keys of `rest` are not visited yet. */
  ghost predicate MovedAt(f: Fleet, g: Fleet, rest: set<string>, job: Job, key: string) {
    var before, after := Get(f.engines, key), Get(g.engines, key);
    if key == SHARED_XRAY_KEY then key in rest ==> after == before
    else
      || after == before
      || ((key in job.groups || Pending(before)) && after.Some? && ChildFrom(after.value.child, Wanted(f, job, key)))
  }

  ghost predicate Moved(f: Fleet, g: Fleet, rest: set<string>, job: Job) {
    forall key :: MovedAt(f, g, rest, job, key)
  }

  function RestAfter(rest: set<string>, m: Move): set<string> {
    if m.Visits? then rest - {m.key} else rest
  }

  lemma MovedVisit(f: Fleet, g: Fleet, rest: set<string>, job: Job, key: string, k: string)
    requires Posed(job) && SoundAt(g, key) && key in rest && rest <= job.groups.Keys
    requires MovedAt(f, g, rest, job, key) && MovedAt(f, g, rest, job, k)
    ensures MovedAt(f, Visit(g, key, job.groups[key], job.settings, job.env).0, rest - {key}, job, k)
  {
    hide Visit, SoundEngine, Spawns;
    var group := job.groups[key];
    VisitElsewhereKeeps(g, key, group, job.settings, job.env);
    if k != key {
      assert Get(Visit(g, key, group, job.settings, job.env).0.engines, k) == Get(g.engines, k);
    } else if key != SHARED_XRAY_KEY {
      VisitElsewhere(g, key, group, job.settings, job.env);
    }
  }

  lemma MovedSettle(f: Fleet, g: Fleet, rest: set<string>, job: Job, key: string, k: string)
    requires SoundAt(g, SHARED_XRAY_KEY) && MovedAt(f, g, rest, job, k)
    ensures MovedAt(f, Settle(g, key), rest, job, k)
  {
    hide Settle, Taken, Possible, XrayAccounts.Remembers;
    SettleElsewhereKeeps(g, key);
    SettleAt(g, key);
    if k != key {
      assert Get(Settle(g, key).engines, k) == Get(g.engines, k);
    }
  }

  lemma MovedStep(f: Fleet, g: Fleet, m: Move, rest: set<string>, job: Job)
    requires Posed(job) && Sound(g) && rest <= job.groups.Keys && (m.Visits? ==> m.key in rest)
    requires Moved(f, g, rest, job)
    ensures Moved(f, Step(g, m, job).0, RestAfter(rest, m), job)
  {
    hide MovedAt, SoundAt, Visit, Settle;
    forall k ensures MovedAt(f, Step(g, m, job).0, RestAfter(rest, m), job, k) {
      if m.Visits? {
        MovedVisit(f, g, rest, job, m.key, k);
      } else {
        MovedSettle(f, g, rest, job, m.key, k);
      }
    }
  }

  // ---------- which sockets can be in the way ----------

  /** The sockets that stay taken, whatever is visited or settles, until the shared key is visited: those of stale
      engines, and those of the engine at the shared key. */
  function Fixed(f: Fleet, job: Job, key: string): set<string> {
    set k, s | k in f.engines && k != key && (k == SHARED_XRAY_KEY || k !in job.groups) && s in Holds(f.engines[k]) :: s
  }

  lemma HoldsElsewhere(key: string, e: Engine)
    requires SoundEngine(key, e) && key != SHARED_XRAY_KEY
    ensures !e.kind.XrayEngine?
    ensures Holds(e) == if e.child.Listening? then e.child.inbound.sockets else {}
  {
    FirstLetters(key);
  }

  lemma StaleStays(f: Fleet, g: Fleet, rest: set<string>, job: Job, key: string)
    requires MovedAt(f, g, rest, job, key) && SoundAt(f, key) && key in f.engines && Holds(f.engines[key]) != {}
    requires if key == SHARED_XRAY_KEY then key in rest else key !in job.groups
    ensures Get(g.engines, key) == Get(f.engines, key)
  {
    if key != SHARED_XRAY_KEY {
      HoldsElsewhere(key, f.engines[key]);
    }
  }

  lemma FixedStaysTaken(f: Fleet, g: Fleet, rest: set<string>, job: Job, key: string)
    requires Moved(f, g, rest, job) && Sound(f) && (SHARED_XRAY_KEY in rest || key == SHARED_XRAY_KEY)
    ensures Fixed(f, job, key) <= Taken(g.engines, key)
  {
    hide MovedAt, SoundAt, Holds;
    forall s | s in Fixed(f, job, key) ensures s in Taken(g.engines, key) {
      var k :| k in f.engines && k != key && (k == SHARED_XRAY_KEY || k !in job.groups) && s in Holds(f.engines[k]);
      assert MovedAt(f, g, rest, job, k) && SoundAt(f, k);
      StaleStays(f, g, rest, job, k);
    }
  }

  /** No child that comes to listen during the job can take one of these sockets: each that would take one has a
      socket that stays taken. */
  ghost predicate NobodyTakes(f: Fleet, job: Job, sockets: set<string>) {
    forall key, ib :: key != SHARED_XRAY_KEY && ib in Wanted(f, job, key) ==>
      ib.sockets !! sockets || !(ib.sockets !! Fixed(f, job, key))
  }

  lemma NotTaken(engines: map<string, Engine>, key: string, sockets: set<string>)
    ensures Taken(engines, key) !! sockets <==> forall k :: k in engines && k != key ==> Holds(engines[k]) !! sockets
  {
    hide Holds;
    if Taken(engines, key) !! sockets {
      forall k | k in engines && k != key ensures Holds(engines[k]) !! sockets {
        forall s | s in Holds(engines[k]) ensures s in Taken(engines, key) && s !in sockets {
        }
      }
    } else {
      var s :| s in Taken(engines, key) && s in sockets;
      var k :| k in engines && k != key && s in Holds(engines[k]);
      assert s in Holds(engines[k]) * sockets;
    }
  }

  /** Settling adds the sockets of the child to what its engine holds, if none of them is taken. */
  lemma HoldsAfterSettle(g: Fleet, key: string)
    requires SoundAt(g, key) && key in g.engines && key != SHARED_XRAY_KEY
    ensures var child := g.engines[key].child;
            Holds(Settle(g, key).engines[key]) ==
              if child.Starting? && child.inbound.sockets !! Taken(g.engines, key) then child.inbound.sockets
                else Holds(g.engines[key])
  {
    hide Settle, Possible, XrayAccounts.Remembers, SocketsOf, Taken;
    SettleAt(g, key);
    HoldsElsewhere(key, g.engines[key]);
  }

  lemma TakenAfterSettle(g: Fleet, key: string, sockets: set<string>)
    requires Taken(g.engines, SHARED_XRAY_KEY) !! sockets && SoundAt(g, SHARED_XRAY_KEY) && SoundAt(g, key)
    requires key in g.engines && g.engines[key].child.Starting? ==>
               g.engines[key].child.inbound.sockets !! sockets ||
                 !(g.engines[key].child.inbound.sockets !! Taken(g.engines, key))
    ensures Taken(Settle(g, key).engines, SHARED_XRAY_KEY) !! sockets
  {
    hide Settle, Holds, Taken, SoundEngine;
    SettleElsewhereKeeps(g, key);
    SettleAt(g, key);
    var after := Settle(g, key).engines;
    NotTaken(g.engines, SHARED_XRAY_KEY, sockets);
    NotTaken(after, SHARED_XRAY_KEY, sockets);
    forall k | k in after && k != SHARED_XRAY_KEY ensures Holds(after[k]) !! sockets {
      if k == key {
        HoldsAfterSettle(g, key);
      } else {
        assert Get(after, k) == Get(g.engines, k);
      }
    }
  }

  lemma TakenAfterVisit(g: Fleet, key: string, group: seq<Inbound>, settings: Settings, env: Conditions,
      sockets: set<string>)
    requires Taken(g.engines, SHARED_XRAY_KEY) !! sockets && Grouping(key, group) && key != SHARED_XRAY_KEY &&
             SoundAt(g, key)
    ensures Taken(Visit(g, key, group, settings, env).0.engines, SHARED_XRAY_KEY) !! sockets
  {
    hide Visit, Holds, Taken, SoundEngine, Spawns;
    VisitElsewhereKeeps(g, key, group, settings, env);
    VisitElsewhere(g, key, group, settings, env);
    var after := Visit(g, key, group, settings, env).0.engines;
    NotTaken(g.engines, SHARED_XRAY_KEY, sockets);
    NotTaken(after, SHARED_XRAY_KEY, sockets);
    forall k | k in after && k != SHARED_XRAY_KEY ensures Holds(after[k]) !! sockets {
      if k == key {
        HoldsElsewhere(key, after[key]);
      } else {
        assert Get(after, k) == Get(g.engines, k);
      }
    }
  }

  lemma MovedKeepsFree(f: Fleet, g: Fleet, m: Move, rest: set<string>, job: Job, sockets: set<string>)
    requires Posed(job) && Sound(f) && Sound(g) && Moved(f, g, rest, job) && SHARED_XRAY_KEY in rest &&
             rest <= job.groups.Keys
    requires NobodyTakes(f, job, sockets) && Taken(g.engines, SHARED_XRAY_KEY) !! sockets
    requires m.Visits? ==> m.key in rest && m.key != SHARED_XRAY_KEY
    ensures Taken(Step(g, m, job).0.engines, SHARED_XRAY_KEY) !! sockets
  {
    hide Visit, Settle, Holds, Taken, Fixed, SoundEngine;
    assert SoundAt(g, m.key) && SoundAt(g, SHARED_XRAY_KEY);
    if m.Visits? {
      TakenAfterVisit(g, m.key, job.groups[m.key], job.settings, job.env, sockets);
    } else {
      if m.key in g.engines && g.engines[m.key].child.Starting? {
        assert m.key != SHARED_XRAY_KEY by { SharedHasNoChild(g); }
        FixedStaysTaken(f, g, rest, job, m.key);
        assert MovedAt(f, g, rest, job, m.key);
        assert g.engines[m.key].child.inbound in Wanted(f, job, m.key);
      }
      TakenAfterSettle(g, m.key, sockets);
    }
  }

  lemma SharedHasNoChild(g: Fleet)
    requires SoundAt(g, SHARED_XRAY_KEY)
    ensures SHARED_XRAY_KEY in g.engines ==> g.engines[SHARED_XRAY_KEY].child == NoChild
  {
  }

  // ---------- when an update succeeds ----------

  predicate AllSpawn(keys: set<string>, job: Job) {
    forall key :: key in keys && key in job.groups && key != SHARED_XRAY_KEY ==> Spawns(key, job.groups[key], job.env)
  }

  /** The shared group succeeds whenever it is visited: a kept engine can be dialled, and one that starts finds its
      sockets free now and is not beaten to them by a child. */
  ghost predicate SharedAlways(f: Fleet, job: Job)
    requires SHARED_XRAY_KEY in job.groups
  {
    var held, group := Get(f.engines, SHARED_XRAY_KEY), job.groups[SHARED_XRAY_KEY];
    && SharedSucceeds(held, group, Taken(f.engines, SHARED_XRAY_KEY), job.settings, job.env)
    && (Keeps(held, group, job.settings) || NobodyTakes(f, job, SocketsOf(group)))
  }

  ghost predicate EveryOrder(f: Fleet, job: Job) {
    AllSpawn(job.groups.Keys, job) && (SHARED_XRAY_KEY in job.groups ==> SharedAlways(f, job))
  }

  /** The shared group succeeds if it comes last: only the sockets of stale engines are in its way. */
  predicate SharedSometimes(f: Fleet, job: Job)
    requires SHARED_XRAY_KEY in job.groups
  {
    SharedSucceeds(Get(f.engines, SHARED_XRAY_KEY), job.groups[SHARED_XRAY_KEY], Fixed(f, job, SHARED_XRAY_KEY),
      job.settings, job.env)
  }

  predicate SomeOrder(f: Fleet, job: Job) {
    AllSpawn(job.groups.Keys, job) && (SHARED_XRAY_KEY in job.groups ==> SharedSometimes(f, job))
  }

  /** The shared key still needs what it needed at first, and its sockets are still free. */
  ghost predicate SharedReady(f: Fleet, g: Fleet, rest: set<string>, job: Job) {
    SHARED_XRAY_KEY in rest && SHARED_XRAY_KEY in job.groups ==>
      Keeps(Get(f.engines, SHARED_XRAY_KEY), job.groups[SHARED_XRAY_KEY], job.settings) ||
      Taken(g.engines, SHARED_XRAY_KEY) !! SocketsOf(job.groups[SHARED_XRAY_KEY])
  }

  lemma ReadyStep(f: Fleet, g: Fleet, m: Move, rest: set<string>, job: Job)
    requires Posed(job) && Sound(f) && Sound(g) && Moved(f, g, rest, job) && rest <= job.groups.Keys &&
             (m.Visits? ==> m.key in rest)
    requires EveryOrder(f, job) && SharedReady(f, g, rest, job)
    ensures Step(g, m, job).1 && SharedReady(f, Step(g, m, job).0, RestAfter(rest, m), job)
  {
    hide Visit, Settle, Taken, SocketsOf, Keeps, Starts, NobodyTakes, Moved, SoundEngine, Spawns, AfterShared;
    assert SoundAt(g, m.key) && (m.Visits? ==> Grouping(m.key, job.groups[m.key]));
    if m.Visits? {
      if m.key == SHARED_XRAY_KEY {
        SharedUnmoved(f, g, rest, job);
        VisitShared(g, job.groups[m.key], job.settings, job.env);
      } else {
        VisitElsewhere(g, m.key, job.groups[m.key], job.settings, job.env);
      }
    }
    if SHARED_XRAY_KEY in RestAfter(rest, m) {
      var group := job.groups[SHARED_XRAY_KEY];
      if !Keeps(Get(f.engines, SHARED_XRAY_KEY), group, job.settings) {
        MovedKeepsFree(f, g, m, rest, job, SocketsOf(group));
      }
    }
  }

  lemma SharedUnmoved(f: Fleet, g: Fleet, rest: set<string>, job: Job)
    requires Moved(f, g, rest, job) && SHARED_XRAY_KEY in rest
    ensures Get(g.engines, SHARED_XRAY_KEY) == Get(f.engines, SHARED_XRAY_KEY)
  {
    assert MovedAt(f, g, rest, job, SHARED_XRAY_KEY);
  }

  lemma {:induction false} EveryOrderPlays(f: Fleet, g: Fleet, moves: seq<Move>, rest: set<string>, job: Job)
    requires Posed(job) && Sound(f) && Sound(g) && Moved(f, g, rest, job) && rest <= job.groups.Keys
    requires EveryOrder(f, job) && SharedReady(f, g, rest, job) && Schedule(moves, rest)
    ensures Play(g, moves, job).1
    decreases moves
  {
    hide Moved, Sound, EveryOrder, SharedReady, Posed, Step;
    if moves != [] {
      var m := moves[0];
      ReadyStep(f, g, m, rest, job);
      MovedStep(f, g, m, rest, job);
      StepSound(g, m, job);
      EveryOrderPlays(f, Step(g, m, job).0, moves[1..], RestAfter(rest, m), job);
    }
  }

  lemma MovedNothing(f: Fleet, rest: set<string>, job: Job)
    ensures Moved(f, f, rest, job)
  {
  }

  // ---------- schedules to choose from ----------

  ghost function VisitAll(keys: set<string>): seq<Move> {
    if keys == {} then [] else
      var key := Pick(keys);
      [Visits(key)] + VisitAll(keys - {key})
  }

  lemma {:induction false} VisitAllIsSchedule(keys: set<string>)
    ensures Schedule(VisitAll(keys), keys)
  {
    if keys != {} {
      var key := Pick(keys);
      VisitAllIsSchedule(keys - {key});
      assert VisitAll(keys)[1..] == VisitAll(keys - {key});
    }
  }

  lemma {:induction false} ScheduleConcat(a: seq<Move>, b: seq<Move>, keys: set<string>, more: set<string>)
    requires Schedule(a, keys) && Schedule(b, more) && keys !! more
    ensures Schedule(a + b, keys + more)
    decreases a
  {
    if a == [] {
      assert a + b == b && keys + more == more;
    } else {
      assert (a + b)[1..] == a[1..] + b;
      ScheduleConcat(a[1..], b, RestAfter(keys, a[0]), more);
      assert a[0].Visits? ==> RestAfter(keys, a[0]) + more == keys + more - {a[0].key};
    }
  }

  lemma {:induction false} PlayConcat(f: Fleet, a: seq<Move>, b: seq<Move>, job: Job)
    ensures Play(f, a + b, job) == if Play(f, a, job).1 then Play(Play(f, a, job).0, b, job) else Play(f, a, job)
    decreases a
  {
    hide Step;
    if a == [] {
      assert a + b == b;
    } else {
      assert (a + b)[1..] == a[1..] + b;
      PlayConcat(Step(f, a[0], job).0, a[1..], b, job);
    }
  }

  /** After a visit the child is only starting. */
  ghost predicate JustSpawned(g: Fleet, job: Job, key: string)
    requires key in job.groups
  {
    key in g.engines && job.groups[key] != [] && g.engines[key].child == Starting(job.groups[key][0])
  }

  lemma {:induction false} PlayVisitAll(f: Fleet, keys: set<string>, job: Job)
    requires Posed(job) && Sound(f) && keys <= job.groups.Keys && SHARED_XRAY_KEY !in keys && AllSpawn(keys, job)
    ensures var (g, ok) := Play(f, VisitAll(keys), job);
            && ok && Sound(g)
            && (forall k :: k in keys ==> JustSpawned(g, job, k))
            && (forall k :: k !in keys ==> Get(g.engines, k) == Get(f.engines, k))
    decreases keys
  {
    hide Posed, Sound, Spawns, Step, JustSpawned;
    if keys != {} {
      var key := Pick(keys);
      var rest := keys - {key};
      assert VisitAll(keys) == [Visits(key)] + VisitAll(rest) && VisitAll(keys)[1..] == VisitAll(rest);
      VisitOneSpawns(f, key, job);
      var f' := Step(f, Visits(key), job).0;
      StepSound(f, Visits(key), job);
      PlayVisitAll(f', rest, job);
      SpawnedStays(f, f', Play(f', VisitAll(rest), job).0, key, rest, job);
    }
  }

  lemma VisitOneSpawns(f: Fleet, key: string, job: Job)
    requires Posed(job) && Sound(f) && key in job.groups && key != SHARED_XRAY_KEY &&
             Spawns(key, job.groups[key], job.env)
    ensures Step(f, Visits(key), job).1 && JustSpawned(Step(f, Visits(key), job).0, job, key)
    ensures SameElsewhere(f, Step(f, Visits(key), job).0, key)
  {
    hide Visit, Spawns, SoundEngine;
    assert SoundAt(f, key) && Grouping(key, job.groups[key]);
    VisitElsewhere(f, key, job.groups[key], job.settings, job.env);
    VisitElsewhereKeeps(f, key, job.groups[key], job.settings, job.env);
  }

  lemma SpawnedStays(f: Fleet, f': Fleet, g: Fleet, key: string, rest: set<string>, job: Job)
    requires key in job.groups && key !in rest && JustSpawned(f', job, key) && SameElsewhere(f, f', key)
    requires forall k :: k !in rest ==> Get(g.engines, k) == Get(f'.engines, k)
    ensures JustSpawned(g, job, key)
    ensures forall k :: k !in rest + {key} ==> Get(g.engines, k) == Get(f.engines, k)
  {
    assert Get(g.engines, key) == Get(f'.engines, key);
  }

  /** Each group may come first. */
  lemma FirstVisit(f: Fleet, key: string, job: Job)
    requires key in job.groups
    ensures var moves := [Visits(key)] + VisitAll(job.groups.Keys - {key});
            Schedule(moves, job.groups.Keys) && (Play(f, moves, job).1 ==> Step(f, Visits(key), job).1)
  {
    hide Step;
    var rest := VisitAll(job.groups.Keys - {key});
    VisitAllIsSchedule(job.groups.Keys - {key});
    assert ([Visits(key)] + rest)[1..] == rest;
  }

  /** What a group needs if it comes first. */
  predicate FirstNeeds(f: Fleet, key: string, job: Job)
    requires key in job.groups
  {
    if key == SHARED_XRAY_KEY then
      SharedSucceeds(Get(f.engines, key), job.groups[key], Taken(f.engines, key), job.settings, job.env)
    else Spawns(key, job.groups[key], job.env)
  }

  lemma FirstVisitSucceeds(f: Fleet, key: string, job: Job)
    requires Posed(job) && Sound(f) && key in job.groups
    ensures Step(f, Visits(key), job).1 <==> FirstNeeds(f, key, job)
  {
    hide Visit, Spawns, SharedSucceeds, SoundEngine, Taken, AfterShared;
    assert SoundAt(f, key) && Grouping(key, job.groups[key]);
    if key == SHARED_XRAY_KEY {
      VisitShared(f, job.groups[key], job.settings, job.env);
    } else {
      VisitElsewhere(f, key, job.groups[key], job.settings, job.env);
    }
  }

  /** Everything but the children that were just spawned is as in f, and the child at the key is starting. */
  ghost predicate Cleared(f: Fleet, g: Fleet, job: Job, key: string, ib: Inbound) {
    && key != SHARED_XRAY_KEY && key in g.engines && g.engines[key].child == Starting(ib)
    && forall k :: k != key ==>
         if k != SHARED_XRAY_KEY && k in job.groups then k in g.engines && g.engines[k].child.Starting?
         else Get(g.engines, k) == Get(f.engines, k)
  }

  lemma ClearedIsFree(f: Fleet, g: Fleet, job: Job, key: string, ib: Inbound)
    requires Sound(g) && Cleared(f, g, job, key, ib)
    ensures Taken(g.engines, key) <= Fixed(f, job, key)
  {
    hide Holds, SoundEngine;
    forall s | s in Taken(g.engines, key) ensures s in Fixed(f, job, key) {
      var k :| k in g.engines && k != key && s in Holds(g.engines[k]);
      assert SoundAt(g, k);
      if k != SHARED_XRAY_KEY && k in job.groups {
        HoldsElsewhere(k, g.engines[k]);
        assert false;
      }
      assert Get(f.engines, k) == Get(g.engines, k);
    }
  }

  /** Then the child settles first and the shared group fails. */
  lemma ClearedFails(f: Fleet, g: Fleet, job: Job, key: string, ib: Inbound)
    requires Posed(job) && Sound(g) && Cleared(f, g, job, key, ib) && SHARED_XRAY_KEY in job.groups
    requires ib.sockets !! Fixed(f, job, key) && !(ib.sockets !! SocketsOf(job.groups[SHARED_XRAY_KEY]))
    requires !Keeps(Get(f.engines, SHARED_XRAY_KEY), job.groups[SHARED_XRAY_KEY], job.settings)
    ensures !Play(g, [Settles(key), Visits(SHARED_XRAY_KEY)], job).1
  {
    hide Visit, Settle, Taken, Fixed, SocketsOf, Keeps, Starts, SoundEngine, AfterShared, Holds;
    var group := job.groups[SHARED_XRAY_KEY];
    var h := Settle(g, key);
    ClearedIsFree(f, g, job, key, ib);
    assert SoundAt(g, key) && SoundAt(g, SHARED_XRAY_KEY) && Grouping(SHARED_XRAY_KEY, group);
    HoldsAfterSettle(g, key);
    SettleAt(g, key);
    SettleElsewhereKeeps(g, key);
    SettleSound(g, key, SHARED_XRAY_KEY);
    NotTaken(h.engines, SHARED_XRAY_KEY, SocketsOf(group));
    assert Get(h.engines, SHARED_XRAY_KEY) == Get(f.engines, SHARED_XRAY_KEY);
    VisitShared(h, group, job.settings, job.env);
    assert [Settles(key), Visits(SHARED_XRAY_KEY)][1..] == [Visits(SHARED_XRAY_KEY)];
  }

  /** The schedule in which the child of one key, for this inbound, settles before the shared group is visited. */
  ghost function Overtaking(f: Fleet, job: Job, key: string, ib: Inbound): seq<Move> {
    VisitAll(job.groups.Keys - {SHARED_XRAY_KEY, key}) +
    if Pending(Get(f.engines, key)) && f.engines[key].child.inbound == ib
      then [Settles(key), Visits(SHARED_XRAY_KEY)] + VisitAll(job.groups.Keys * {key})
      else [Visits(key), Settles(key), Visits(SHARED_XRAY_KEY)]
  }

  lemma ThreeMoves(a: string, b: string)
    requires a != b
    ensures Schedule([Visits(a), Settles(a), Visits(b)], {a, b})
  {
    assert [Visits(a), Settles(a), Visits(b)][1..] == [Settles(a), Visits(b)];
    assert [Settles(a), Visits(b)][1..] == [Visits(b)] && [Visits(b)][1..] == [];
    assert {a, b} - {a} == {b} && {b} - {b} == {};
    assert Schedule([Visits(b)], {b});
    assert Schedule([Settles(a), Visits(b)], {b});
  }

  lemma OvertakingIsSchedule(f: Fleet, job: Job, key: string, ib: Inbound)
    requires key != SHARED_XRAY_KEY && ib in Wanted(f, job, key) && SHARED_XRAY_KEY in job.groups
    ensures Schedule(Overtaking(f, job, key, ib), job.groups.Keys)
  {
    var others := job.groups.Keys - {SHARED_XRAY_KEY, key};
    var own := job.groups.Keys * {key};
    VisitAllIsSchedule(others);
    if Pending(Get(f.engines, key)) && f.engines[key].child.inbound == ib {
      var last := VisitAll(own);
      VisitAllIsSchedule(own);
      assert ([Settles(key), Visits(SHARED_XRAY_KEY)] + last)[1..] == [Visits(SHARED_XRAY_KEY)] + last;
      assert ([Visits(SHARED_XRAY_KEY)] + last)[1..] == last;
      assert own + {SHARED_XRAY_KEY} - {SHARED_XRAY_KEY} == own;
      ScheduleConcat(VisitAll(others), [Settles(key), Visits(SHARED_XRAY_KEY)] + last, others, own + {SHARED_XRAY_KEY});
      assert others + (own + {SHARED_XRAY_KEY}) == job.groups.Keys;
    } else {
      ThreeMoves(key, SHARED_XRAY_KEY);
      ScheduleConcat(VisitAll(others), [Visits(key), Settles(key), Visits(SHARED_XRAY_KEY)], others,
        {key, SHARED_XRAY_KEY});
      assert others + {key, SHARED_XRAY_KEY} == job.groups.Keys;
    }
  }

  lemma OvertakingFails(f: Fleet, job: Job, key: string, ib: Inbound)
    requires Posed(job) && Sound(f) && key != SHARED_XRAY_KEY && ib in Wanted(f, job, key) &&
             SHARED_XRAY_KEY in job.groups
    requires AllSpawn(job.groups.Keys, job)
    requires ib.sockets !! Fixed(f, job, key) && !(ib.sockets !! SocketsOf(job.groups[SHARED_XRAY_KEY]))
    requires !Keeps(Get(f.engines, SHARED_XRAY_KEY), job.groups[SHARED_XRAY_KEY], job.settings)
    ensures !Play(f, Overtaking(f, job, key, ib), job).1
  {
    hide Posed, Sound, Spawns, Step, Fixed, SocketsOf, Keeps;
    var others := job.groups.Keys - {SHARED_XRAY_KEY, key};
    PlayVisitAll(f, others, job);
    var g := Play(f, VisitAll(others), job).0;
    var fails := [Settles(key), Visits(SHARED_XRAY_KEY)];
    if Pending(Get(f.engines, key)) && f.engines[key].child.inbound == ib {
      var last := VisitAll(job.groups.Keys * {key});
      PlayConcat(f, VisitAll(others), fails + last, job);
      PlayConcat(g, fails, last, job);
      assert Get(g.engines, key) == Get(f.engines, key);
      ClearedAfterVisits(f, g, g, job, key, ib, others);
      ClearedFails(f, g, job, key, ib);
    } else {
      PlayConcat(f, VisitAll(others), [Visits(key)] + fails, job);
      assert [Visits(key)] + fails == [Visits(key), Settles(key), Visits(SHARED_XRAY_KEY)];
      assert ([Visits(key)] + fails)[1..] == fails;
      VisitOneSpawns(g, key, job);
      StepSound(g, Visits(key), job);
      var h := Step(g, Visits(key), job).0;
      ClearedAfterVisits(f, g, h, job, key, ib, others);
      ClearedFails(f, h, job, key, ib);
    }
  }

  lemma ClearedAfterVisits(f: Fleet, g: Fleet, h: Fleet, job: Job, key: string, ib: Inbound, others: set<string>)
    requires key != SHARED_XRAY_KEY && others == job.groups.Keys - {SHARED_XRAY_KEY, key}
    requires key in h.engines && h.engines[key].child == Starting(ib) && SameElsewhere(g, h, key)
    requires forall k :: k in others ==> JustSpawned(g, job, k)
    requires forall k :: k !in others ==> Get(g.engines, k) == Get(f.engines, k)
    ensures Cleared(f, h, job, key, ib)
  {
    forall k | k != key
      ensures if k != SHARED_XRAY_KEY && k in job.groups then k in h.engines && h.engines[k].child.Starting?
              else Get(h.engines, k) == Get(f.engines, k)
    {
      assert Get(h.engines, k) == Get(g.engines, k);
      if k in others {
        assert JustSpawned(g, job, k);
      }
    }
  }

  ghost predicate SucceedsAlways(f: Fleet, job: Job) {
    forall moves :: Schedule(moves, job.groups.Keys) ==> Play(f, moves, job).1
  }

  ghost predicate SucceedsSometimes(f: Fleet, job: Job) {
    exists moves :: Schedule(moves, job.groups.Keys) && Play(f, moves, job).1
  }

  /** An update succeeds in every schedule if and only if every group outside the shared key can be spawned, and the
      shared group, if there is one, is served by an engine that is kept and can be dialled, or by one that starts on
      sockets that are free now and that no child can take meanwhile. */
  lemma SucceedsAlwaysExactly(f: Fleet, job: Job)
    requires Posed(job) && Sound(f)
    ensures SucceedsAlways(f, job) <==> EveryOrder(f, job)
  {
    hide Posed, Sound, Step, EveryOrder;
    if EveryOrder(f, job) {
      forall moves | Schedule(moves, job.groups.Keys) ensures Play(f, moves, job).1 {
        MovedNothing(f, job.groups.Keys, job);
        ReadyAtFirst(f, job);
        EveryOrderPlays(f, f, moves, job.groups.Keys, job);
      }
    } else {
      var moves := FailingSchedule(f, job);
    }
  }

  /** Where the condition fails, some schedule fails. */
  lemma FailingSchedule(f: Fleet, job: Job) returns (moves: seq<Move>)
    requires Posed(job) && Sound(f) && !EveryOrder(f, job)
    ensures Schedule(moves, job.groups.Keys) && !Play(f, moves, job).1
  {
    hide Posed, Sound, Step, Spawns, SharedSucceeds, Keeps, Fixed, SocketsOf, Taken;
    if key :| key in job.groups && !FirstNeeds(f, key, job) {
      FirstVisit(f, key, job);
      FirstVisitSucceeds(f, key, job);
      moves := [Visits(key)] + VisitAll(job.groups.Keys - {key});
    } else {
      var key, ib := Taker(f, job);
      OvertakingIsSchedule(f, job, key, ib);
      OvertakingFails(f, job, key, ib);
      moves := Overtaking(f, job, key, ib);
    }
  }

  lemma ReadyAtFirst(f: Fleet, job: Job)
    requires EveryOrder(f, job)
    ensures SharedReady(f, f, job.groups.Keys, job)
  {
    hide Keeps, Starts, NobodyTakes, Taken, SocketsOf, Spawns;
    if SHARED_XRAY_KEY in job.groups {
      assert SharedAlways(f, job);
    }
  }

  lemma Taker(f: Fleet, job: Job) returns (key: string, ib: Inbound)
    requires !EveryOrder(f, job) && forall key :: key in job.groups ==> FirstNeeds(f, key, job)
    ensures SHARED_XRAY_KEY in job.groups && key != SHARED_XRAY_KEY && ib in Wanted(f, job, key)
    ensures ib.sockets !! Fixed(f, job, key) && !(ib.sockets !! SocketsOf(job.groups[SHARED_XRAY_KEY]))
    ensures !Keeps(Get(f.engines, SHARED_XRAY_KEY), job.groups[SHARED_XRAY_KEY], job.settings)
  {
    hide SharedSucceeds, Keeps, Fixed, SocketsOf, Taken, Spawns, Wanted;
    var sockets := SocketsOf(job.groups[SHARED_XRAY_KEY]);
    key, ib :| key != SHARED_XRAY_KEY && ib in Wanted(f, job, key) &&
      !(ib.sockets !! sockets || !(ib.sockets !! Fixed(f, job, key)));
  }

  // ---------- the best order ----------

  lemma {:induction false} PlayNeeds(f: Fleet, g: Fleet, moves: seq<Move>, rest: set<string>, job: Job)
    requires Posed(job) && Sound(f) && Sound(g) && Moved(f, g, rest, job) && rest <= job.groups.Keys
    requires Schedule(moves, rest) && Play(g, moves, job).1
    ensures AllSpawn(rest, job) && (SHARED_XRAY_KEY in rest ==> SharedSometimes(f, job))
    decreases moves
  {
    hide Moved, Sound, Posed, Step, SharedSometimes, Spawns;
    if moves != [] {
      var m := moves[0];
      MovedStep(f, g, m, rest, job);
      StepSound(g, m, job);
      PlayNeeds(f, Step(g, m, job).0, moves[1..], RestAfter(rest, m), job);
      if m.Visits? {
        VisitNeeds(f, g, m.key, rest, job);
      }
    }
  }

  lemma VisitNeeds(f: Fleet, g: Fleet, key: string, rest: set<string>, job: Job)
    requires Posed(job) && Sound(f) && Sound(g) && Moved(f, g, rest, job) && rest <= job.groups.Keys && key in rest
    requires Step(g, Visits(key), job).1
    ensures if key == SHARED_XRAY_KEY then SharedSometimes(f, job) else Spawns(key, job.groups[key], job.env)
  {
    hide Posed, Sound, Moved, Step, Spawns, Fixed, Taken, SocketsOf, Keeps, Starts;
    FirstVisitSucceeds(g, key, job);
    if key == SHARED_XRAY_KEY {
      SharedUnmoved(f, g, rest, job);
      FixedStaysTaken(f, g, rest, job, key);
    }
  }

  /** After every other group was spawned, only stale engines hold sockets. */
  lemma SharedLastSucceeds(f: Fleet, job: Job)
    requires Posed(job) && Sound(f) && SHARED_XRAY_KEY in job.groups && SomeOrder(f, job)
    ensures Play(f, VisitAll(job.groups.Keys - {SHARED_XRAY_KEY}) + [Visits(SHARED_XRAY_KEY)], job).1
  {
    hide Posed, Sound, Spawns, Visit, Fixed, Taken, SocketsOf, Keeps, Starts, SoundEngine, AfterShared;
    var others := job.groups.Keys - {SHARED_XRAY_KEY};
    PlayVisitAll(f, others, job);
    PlayConcat(f, VisitAll(others), [Visits(SHARED_XRAY_KEY)], job);
    var g := Play(f, VisitAll(others), job).0;
    SpawnedIsFree(f, g, job, others);
    assert Get(g.engines, SHARED_XRAY_KEY) == Get(f.engines, SHARED_XRAY_KEY);
    SoundHere(g, job);
    VisitShared(g, job.groups[SHARED_XRAY_KEY], job.settings, job.env);
  }

  lemma SoundHere(g: Fleet, job: Job)
    requires Sound(g) && Posed(job) && SHARED_XRAY_KEY in job.groups
    ensures SoundAt(g, SHARED_XRAY_KEY) && Grouping(SHARED_XRAY_KEY, job.groups[SHARED_XRAY_KEY])
  {
  }

  lemma SpawnedIsFree(f: Fleet, g: Fleet, job: Job, others: set<string>)
    requires Sound(g) && others == job.groups.Keys - {SHARED_XRAY_KEY}
    requires forall k :: k in others ==> JustSpawned(g, job, k)
    requires forall k :: k !in others ==> Get(g.engines, k) == Get(f.engines, k)
    ensures Taken(g.engines, SHARED_XRAY_KEY) <= Fixed(f, job, SHARED_XRAY_KEY)
  {
    hide Holds, SoundEngine;
    forall s | s in Taken(g.engines, SHARED_XRAY_KEY) ensures s in Fixed(f, job, SHARED_XRAY_KEY) {
      var k :| k in g.engines && k != SHARED_XRAY_KEY && s in Holds(g.engines[k]);
      assert SoundAt(g, k);
      HoldsElsewhere(k, g.engines[k]);
      assert k in others ==> JustSpawned(g, job, k);
      assert k !in others;
      assert Get(f.engines, k) == Get(g.engines, k);
    }
  }

  /** An update succeeds in some schedule if and only if every other group can be spawned, and the shared group is
      served by an engine that is kept and can be dialled, or by one that starts on sockets that no stale engine
      holds. */
  lemma SucceedsSometimesExactly(f: Fleet, job: Job)
    requires Posed(job) && Sound(f)
    ensures SucceedsSometimes(f, job) <==> SomeOrder(f, job)
  {
    hide Posed, Sound, Step, Spawns, SharedSucceeds, SharedSometimes, Keeps, Fixed, SocketsOf, Taken;
    var keys := job.groups.Keys;
    if SucceedsSometimes(f, job) {
      var moves :| Schedule(moves, keys) && Play(f, moves, job).1;
      MovedNothing(f, keys, job);
      PlayNeeds(f, f, moves, keys, job);
    } else if SomeOrder(f, job) {
      var moves := SucceedingSchedule(f, job);
    }
  }

  lemma SucceedingSchedule(f: Fleet, job: Job) returns (moves: seq<Move>)
    requires Posed(job) && Sound(f) && SomeOrder(f, job)
    ensures Schedule(moves, job.groups.Keys) && Play(f, moves, job).1
  {
    hide Posed, Sound, Step, Spawns, SharedSometimes;
    var others := job.groups.Keys - {SHARED_XRAY_KEY};
    VisitAllIsSchedule(others);
    if SHARED_XRAY_KEY in job.groups {
      SharedLastSucceeds(f, job);
      OneVisit(SHARED_XRAY_KEY);
      ScheduleConcat(VisitAll(others), [Visits(SHARED_XRAY_KEY)], others, {SHARED_XRAY_KEY});
      assert others + {SHARED_XRAY_KEY} == job.groups.Keys;
      moves := VisitAll(others) + [Visits(SHARED_XRAY_KEY)];
    } else {
      assert others == job.groups.Keys;
      PlayVisitAll(f, others, job);
      moves := VisitAll(others);
    }
  }

  lemma OneVisit(key: string)
    ensures Schedule([Visits(key)], {key})
  {
    assert [Visits(key)][1..] == [] && {key} - {key} == {};
  }

  // ---------- what success means ----------

  /** The engine has the kind of its key and has accepted the whole group. An Xray engine remembers it; the others
      spawned a child for it, which starts, listens, or has exited. */
  ghost predicate Runs(e: Engine, key: string, group: seq<Inbound>, settings: Settings) {
    && e.kind == KindOfKey(key) && e.accepted == group
    && if key == SHARED_XRAY_KEY then
         e.xray.lastConfigs == XrayAccounts.Stripped(group) && e.xray.lastSettings == settings
       else |group| == 1 && ChildFrom(e.child, {group[0]})
  }

  ghost predicate RunsAt(f: Fleet, job: Job, key: string)
    requires key in job.groups
  {
    key in f.engines && Runs(f.engines[key], key, job.groups[key], job.settings)
  }

  lemma VisitRuns(f: Fleet, key: string, job: Job)
    requires Posed(job) && Sound(f) && key in job.groups && Step(f, Visits(key), job).1
    ensures RunsAt(Step(f, Visits(key), job).0, job, key)
  {
    hide Visit, SoundEngine, Holds, Keeps;
    assert SoundAt(f, key) && Grouping(key, job.groups[key]);
    FirstLetters(key);
    if key == SHARED_XRAY_KEY {
      VisitShared(f, job.groups[key], job.settings, job.env);
    } else {
      VisitElsewhere(f, key, job.groups[key], job.settings, job.env);
    }
  }

  lemma RunsStays(f: Fleet, m: Move, job: Job, key: string)
    requires key in job.groups && RunsAt(f, job, key) && m != Visits(key)
    ensures RunsAt(Step(f, m, job).0, job, key)
  {
    hide Visit, Settle, Taken;
    if m.Settles? {
      SettleElsewhereKeeps(f, m.key);
      SettleAt(f, m.key);
      assert m.key != key ==> Get(Settle(f, m.key).engines, key) == Get(f.engines, key);
    } else if m.key in job.groups {
      VisitElsewhereKeeps(f, m.key, job.groups[m.key], job.settings, job.env);
      assert Get(Step(f, m, job).0.engines, key) == Get(f.engines, key);
    }
  }

  /** After a whole schedule every group runs. */
  lemma {:induction false} PlayRuns(f: Fleet, moves: seq<Move>, rest: set<string>, job: Job)
    requires Posed(job) && Sound(f) && rest <= job.groups.Keys && Schedule(moves, rest) && Play(f, moves, job).1
    requires forall key :: key in job.groups.Keys - rest ==> RunsAt(f, job, key)
    ensures forall key :: key in job.groups ==> RunsAt(Play(f, moves, job).0, job, key)
    decreases moves
  {
    hide Posed, Sound, Step, RunsAt;
    if moves != [] {
      var m := moves[0];
      var f' := Step(f, m, job).0;
      StepSound(f, m, job);
      forall key | key in job.groups.Keys - RestAfter(rest, m) ensures RunsAt(f', job, key) {
        if m == Visits(key) {
          VisitRuns(f, key, job);
        } else {
          RunsStays(f, m, job, key);
        }
      }
      PlayRuns(f', moves[1..], RestAfter(rest, m), job);
    }
  }

  lemma DroppedAt(f: Fleet, wanted: set<string>, key: string)
    ensures Get(DropStale(f, wanted).engines, key) == if key in wanted then Get(f.engines, key) else None
  {
  }

  // ---------- sockets are exclusive ----------

  /** No two engines hold the same socket. */
  ghost predicate Exclusive(f: Fleet) {
    forall key :: key in f.engines ==> Holds(f.engines[key]) !! Taken(f.engines, key)
  }

  lemma ExclusivePairs(f: Fleet)
    ensures Exclusive(f) <==>
              forall k, l :: k in f.engines && l in f.engines && k != l ==> Holds(f.engines[k]) !! Holds(f.engines[l])
  {
    hide Holds, Taken;
    forall key | key in f.engines
      ensures Holds(f.engines[key]) !! Taken(f.engines, key) <==>
              forall l :: l in f.engines && l != key ==> Holds(f.engines[key]) !! Holds(f.engines[l])
    {
      NotTaken(f.engines, key, Holds(f.engines[key]));
    }
  }

  lemma ExclusiveAfter(f: Fleet, g: Fleet, key: string)
    requires Exclusive(f) && SameElsewhere(f, g, key)
    requires key in g.engines ==> Holds(g.engines[key]) !! Taken(f.engines, key)
    ensures Exclusive(g)
  {
    hide Holds, Taken, Exclusive;
    ExclusivePairs(f);
    ExclusivePairs(g);
    SameTaken(f.engines, g.engines, key);
    if key in g.engines {
      NotTaken(g.engines, key, Holds(g.engines[key]));
    }
    forall k, l | k in g.engines && l in g.engines && k != l ensures Holds(g.engines[k]) !! Holds(g.engines[l]) {
      assert k != key ==> Get(g.engines, k) == Get(f.engines, k);
      assert l != key ==> Get(g.engines, l) == Get(f.engines, l);
    }
  }

  lemma SettleExclusive(f: Fleet, key: string)
    requires Exclusive(f) && SoundAt(f, key)
    ensures Exclusive(Settle(f, key))
  {
    hide Holds, Taken, Settle, SoundEngine;
    SettleElsewhereKeeps(f, key);
    SettleAt(f, key);
    if key in f.engines && key != SHARED_XRAY_KEY {
      HoldsAfterSettle(f, key);
    } else if key in f.engines {
      SharedHasNoChild(f);
    }
    ExclusiveAfter(f, Settle(f, key), key);
  }

  lemma StrippedSockets(inbounds: seq<Inbound>)
    ensures SocketsOf(XrayAccounts.Stripped(inbounds)) == SocketsOf(inbounds)
  {
    var t := XrayAccounts.Stripped(inbounds);
    forall s ensures s in SocketsOf(t) <==> s in SocketsOf(inbounds) {
      if s in SocketsOf(t) {
        var u :| u in t && XrayAccounts.Emitted(u) && s in u.sockets;
        var i :| 0 <= i < |t| && t[i] == u;
        assert inbounds[i] in inbounds && XrayAccounts.Emitted(inbounds[i]) && inbounds[i].sockets == u.sockets;
      }
      if s in SocketsOf(inbounds) {
        var ib :| ib in inbounds && XrayAccounts.Emitted(ib) && s in ib.sockets;
        var i :| 0 <= i < |inbounds| && inbounds[i] == ib;
        assert t[i] in t && XrayAccounts.Emitted(t[i]) && t[i].sockets == ib.sockets;
      }
    }
  }

  /** What the engine at the shared key holds after a visit. */
  lemma SharedHolds(f: Fleet, group: seq<Inbound>, settings: Settings, env: Conditions)
    requires Grouping(SHARED_XRAY_KEY, group) && SoundAt(f, SHARED_XRAY_KEY)
    ensures var (g, ok) := Visit(f, SHARED_XRAY_KEY, group, settings, env);
            var held, after := Get(f.engines, SHARED_XRAY_KEY), Get(g.engines, SHARED_XRAY_KEY);
            && (Keeps(held, group, settings) ==> after.Some? && Holds(after.value) == Holds(held.value))
            && (!Keeps(held, group, settings) && after.Some? ==>
                Holds(after.value) == if ok then SocketsOf(group) else {})
            && (!Keeps(held, group, settings) && ok ==> SocketsOf(group) !! Taken(f.engines, SHARED_XRAY_KEY))
  {
    hide Visit, SoundEngine, Taken, SocketsOf, Starts;
    VisitShared(f, group, settings, env);
    StrippedSockets(group);
  }

  lemma VisitExclusive(f: Fleet, key: string, group: seq<Inbound>, settings: Settings, env: Conditions)
    requires Exclusive(f) && SoundAt(f, key) && Grouping(key, group)
    ensures Exclusive(Visit(f, key, group, settings, env).0)
  {
    hide Visit, SoundEngine, Taken, SocketsOf, Holds, XrayAccounts.Hot, Spawns;
    VisitElsewhereKeeps(f, key, group, settings, env);
    var g := Visit(f, key, group, settings, env).0;
    if key == SHARED_XRAY_KEY {
      SharedHolds(f, group, settings, env);
    } else {
      VisitElsewhere(f, key, group, settings, env);
      if key in g.engines {
        HoldsElsewhere(key, g.engines[key]);
      }
    }
    ExclusiveAfter(f, g, key);
  }

  lemma StepExclusive(f: Fleet, m: Move, job: Job)
    requires Exclusive(f) && Sound(f) && Posed(job)
    ensures Exclusive(Step(f, m, job).0)
  {
    hide Visit, Settle, Exclusive, SoundAt;
    assert SoundAt(f, m.key);
    if m.Settles? {
      SettleExclusive(f, m.key);
    } else if m.key in job.groups {
      VisitExclusive(f, m.key, job.groups[m.key], job.settings, job.env);
    }
  }

  lemma {:induction false} PlayExclusive(f: Fleet, moves: seq<Move>, job: Job)
    requires Exclusive(f) && Sound(f) && Posed(job)
    ensures Exclusive(Play(f, moves, job).0)
    decreases moves
  {
    hide Sound, Step, Exclusive;
    if moves != [] {
      StepSound(f, moves[0], job);
      StepExclusive(f, moves[0], job);
      PlayExclusive(Step(f, moves[0], job).0, moves[1..], job);
    }
  }

  lemma DropSound(f: Fleet, wanted: set<string>)
    requires Sound(f)
    ensures Sound(DropStale(f, wanted))
    ensures Exclusive(f) ==> Exclusive(DropStale(f, wanted))
  {
    hide SoundEngine, Holds, Exclusive;
    forall key ensures SoundAt(DropStale(f, wanted), key) {
      assert SoundAt(f, key);
    }
    ExclusivePairs(f);
    ExclusivePairs(DropStale(f, wanted));
  }

  // ---------- when every inbound is served ----------

  /** The sockets that serving a group takes. */
  function NeedsOf(job: Job, key: string): set<string> {
    if key !in job.groups || job.groups[key] == [] then {}
    else if key == SHARED_XRAY_KEY then SocketsOf(job.groups[key])
    else job.groups[key][0].sockets
  }

  function HeldAt(f: Fleet, key: string): set<string> {
    if key in f.engines then Holds(f.engines[key]) else {}
  }

  /** The children settle one after the other. */
  function SettleAll(f: Fleet, keys: seq<string>): Fleet
    decreases keys
  {
    if keys == [] then f else SettleAll(Settle(f, keys[0]), keys[1..])
  }

  /** The rest of an update whose groups were all visited: stale engines stop, and then the children settle. */
  function Finish(f: Fleet, job: Job, later: seq<string>): Fleet {
    SettleAll(DropStale(f, job.groups.Keys), later)
  }

  /** The inbounds of the group are served. */
  ghost predicate ServedAt(f: Fleet, job: Job, key: string)
    requires key in job.groups
  {
    && key in f.engines
    && if key == SHARED_XRAY_KEY then
         f.engines[key].kind == XrayEngine && f.engines[key].xray.live &&
           f.engines[key].xray.lastConfigs == XrayAccounts.Stripped(job.groups[key])
       else job.groups[key] != [] && f.engines[key].child == Listening(job.groups[key][0])
  }

  ghost predicate AllServed(f: Fleet, job: Job) {
    forall key :: key in job.groups ==> ServedAt(f, job, key)
  }

  /** In every schedule the update succeeds, and once all children have settled every inbound is served. */
  ghost predicate ServesAlways(f: Fleet, job: Job) {
    forall moves, later :: Schedule(moves, job.groups.Keys) && job.groups.Keys <= Elements(later) ==>
      Play(f, moves, job).1 && AllServed(Finish(Play(f, moves, job).0, job, later), job)
  }

  predicate AtRest(f: Fleet) {
    forall key :: key in f.engines ==> !f.engines[key].child.Starting?
  }

  /** The sockets of a group that needs a child are neither held by another engine now nor needed by another group. */
  ghost predicate ApartAt(f: Fleet, job: Job, key: string) {
    && NeedsOf(job, key) !! Taken(f.engines, key)
    && forall k :: k != key ==> NeedsOf(job, key) !! NeedsOf(job, k)
  }

  /** Every group that needs a child has its sockets for itself, and an Xray instance that is kept is alive. */
  ghost predicate Apart(f: Fleet, job: Job) {
    && (forall key :: key in job.groups && key != SHARED_XRAY_KEY ==> ApartAt(f, job, key))
    && (SHARED_XRAY_KEY in job.groups &&
        Keeps(Get(f.engines, SHARED_XRAY_KEY), job.groups[SHARED_XRAY_KEY], job.settings) ==>
          f.engines[SHARED_XRAY_KEY].xray.live)
  }

  ghost predicate ChildServes(g: Fleet, job: Job, key: string)
    requires key in job.groups && job.groups[key] != []
  {
    var ib := job.groups[key][0];
    key in g.engines && (g.engines[key].child == Starting(ib) || g.engines[key].child == Listening(ib))
  }

  /** The state of one key while the keys of `rest` are not visited yet. */
  ghost predicate FitsAt(f: Fleet, g: Fleet, rest: set<string>, job: Job, key: string) {
    && HeldAt(g, key) <= HeldAt(f, key) + NeedsOf(job, key)
    && (key !in job.groups || (key != SHARED_XRAY_KEY && key in rest) ==> !Pending(Get(g.engines, key)))
    && (key == SHARED_XRAY_KEY && key in rest ==> Get(g.engines, key) == Get(f.engines, key))
    && (key in job.groups && key !in rest ==>
          if key == SHARED_XRAY_KEY then ServedAt(g, job, key) else job.groups[key] != [] && ChildServes(g, job, key))
  }

  ghost predicate Fits(f: Fleet, g: Fleet, rest: set<string>, job: Job) {
    forall key :: FitsAt(f, g, rest, job, key)
  }

  lemma FitsIsFree(f: Fleet, g: Fleet, rest: set<string>, job: Job, key: string)
    requires Fits(f, g, rest, job) && ApartAt(f, job, key)
    ensures NeedsOf(job, key) !! Taken(g.engines, key)
  {
    hide Holds, NeedsOf, Taken;
    NotTaken(g.engines, key, NeedsOf(job, key));
    NotTaken(f.engines, key, NeedsOf(job, key));
    forall k | k in g.engines && k != key ensures Holds(g.engines[k]) !! NeedsOf(job, key) {
      assert FitsAt(f, g, rest, job, k);
      assert HeldAt(f, k) !! NeedsOf(job, key);
    }
  }

  lemma FitsVisit(f: Fleet, g: Fleet, rest: set<string>, job: Job, key: string)
    requires Posed(job) && Sound(g) && Fits(f, g, rest, job) && Apart(f, job) && key in rest && rest <= job.groups.Keys
    requires Step(g, Visits(key), job).1
    ensures Fits(f, Step(g, Visits(key), job).0, rest - {key}, job)
  {
    hide Visit, SoundEngine, SocketsOf, Holds, Posed, Sound, NeedsOf;
    var h := Step(g, Visits(key), job).0;
    VisitElsewhereKeeps(g, key, job.groups[key], job.settings, job.env);
    forall k ensures FitsAt(f, h, rest - {key}, job, k) {
      assert FitsAt(f, g, rest, job, k);
      if k != key {
        assert Get(h.engines, k) == Get(g.engines, k);
      } else if key == SHARED_XRAY_KEY {
        FitsShared(f, g, rest, job);
      } else {
        FitsSpawned(f, g, rest, job, key);
      }
    }
  }

  lemma FitsSpawned(f: Fleet, g: Fleet, rest: set<string>, job: Job, key: string)
    requires Posed(job) && Sound(g) && key in job.groups && key != SHARED_XRAY_KEY && Step(g, Visits(key), job).1
    ensures FitsAt(f, Step(g, Visits(key), job).0, rest - {key}, job, key)
  {
    hide Visit, SoundEngine, SocketsOf, Holds, Spawns;
    assert SoundAt(g, key) && Grouping(key, job.groups[key]);
    VisitElsewhere(g, key, job.groups[key], job.settings, job.env);
    HoldsElsewhere(key, Step(g, Visits(key), job).0.engines[key]);
  }

  lemma FitsShared(f: Fleet, g: Fleet, rest: set<string>, job: Job)
    requires Posed(job) && Sound(g) && SHARED_XRAY_KEY in rest && SHARED_XRAY_KEY in job.groups && Apart(f, job)
    requires FitsAt(f, g, rest, job, SHARED_XRAY_KEY) && Step(g, Visits(SHARED_XRAY_KEY), job).1
    ensures FitsAt(f, Step(g, Visits(SHARED_XRAY_KEY), job).0, rest - {SHARED_XRAY_KEY}, job, SHARED_XRAY_KEY)
  {
    hide Visit, SoundEngine, SocketsOf, Holds, SharedSucceeds, Sound, Posed, ApartAt;
    SoundHere(g, job);
    VisitShared(g, job.groups[SHARED_XRAY_KEY], job.settings, job.env);
    SharedHolds(g, job.groups[SHARED_XRAY_KEY], job.settings, job.env);
  }

  lemma FitsSettle(f: Fleet, g: Fleet, rest: set<string>, job: Job, key: string)
    requires Sound(g) && Fits(f, g, rest, job) && Apart(f, job)
    ensures Fits(f, Settle(g, key), rest, job)
    ensures key in job.groups && key !in rest && key != SHARED_XRAY_KEY ==>
              key in Settle(g, key).engines && job.groups[key] != [] &&
                Settle(g, key).engines[key].child == Listening(job.groups[key][0])
  {
    hide Settle, SoundEngine, Holds, Taken, SocketsOf;
    SettleElsewhereKeeps(g, key);
    SettleAt(g, key);
    assert SoundAt(g, key);
    assert FitsAt(f, g, rest, job, key);
    if key in g.engines && g.engines[key].child.Starting? {
      assert key != SHARED_XRAY_KEY by { SharedHasNoChild(g); }
      FitsIsFree(f, g, rest, job, key);
      HoldsAfterSettle(g, key);
    }
    forall k ensures FitsAt(f, Settle(g, key), rest, job, k) {
      assert FitsAt(f, g, rest, job, k);
      assert k != key ==> Get(Settle(g, key).engines, k) == Get(g.engines, k);
    }
  }

  lemma {:induction false} PlayFits(f: Fleet, g: Fleet, moves: seq<Move>, rest: set<string>, job: Job)
    requires Posed(job) && Sound(g) && Fits(f, g, rest, job) && Apart(f, job) && rest <= job.groups.Keys
    requires Schedule(moves, rest) && Play(g, moves, job).1
    ensures Fits(f, Play(g, moves, job).0, {}, job)
    decreases moves
  {
    hide Posed, Sound, Fits, Apart, Settle, Visit;
    if moves != [] {
      var m := moves[0];
      StepSound(g, m, job);
      if m.Visits? {
        FitsVisit(f, g, rest, job, m.key);
      } else {
        FitsSettle(f, g, rest, job, m.key);
      }
      PlayFits(f, Step(g, m, job).0, moves[1..], RestAfter(rest, m), job);
    }
  }

  lemma FitsDrop(f: Fleet, g: Fleet, job: Job)
    requires Fits(f, g, {}, job)
    ensures Fits(f, DropStale(g, job.groups.Keys), {}, job)
  {
    hide Holds, NeedsOf, DropStale;
    forall key ensures FitsAt(f, DropStale(g, job.groups.Keys), {}, job, key) {
      assert FitsAt(f, g, {}, job, key);
      DroppedAt(g, job.groups.Keys, key);
    }
  }

  ghost predicate ListensAt(g: Fleet, job: Job, key: string)
    requires key in job.groups
  {
    key in g.engines && job.groups[key] != [] && g.engines[key].child == Listening(job.groups[key][0])
  }

  lemma SettleKeepsListening(g: Fleet, job: Job, key: string, k: string)
    requires k in job.groups && ListensAt(g, job, k)
    ensures ListensAt(Settle(g, key), job, k)
  {
    hide Settle, Taken;
    SettleAt(g, key);
    SettleElsewhereKeeps(g, key);
    assert k != key ==> Get(Settle(g, key).engines, k) == Get(g.engines, k);
  }

  /** Once its turn has come, a child listens. */
  lemma {:induction false} SettleAllServes(f: Fleet, g: Fleet, job: Job, later: seq<string>)
    requires Sound(g) && Fits(f, g, {}, job) && Apart(f, job)
    ensures Fits(f, SettleAll(g, later), {}, job)
    ensures forall k :: k in job.groups && k != SHARED_XRAY_KEY && (k in later || ListensAt(g, job, k)) ==>
              ListensAt(SettleAll(g, later), job, k)
    decreases later
  {
    hide Sound, Fits, Apart, Settle;
    if later != [] {
      var key, g' := later[0], Settle(g, later[0]);
      FitsSettle(f, g, {}, job, key);
      SettleSoundAll(g, key);
      SettleAllServes(f, g', job, later[1..]);
      assert later == [key] + later[1..];
      forall k | k in job.groups && k != SHARED_XRAY_KEY && (k in later || ListensAt(g, job, k))
        ensures ListensAt(SettleAll(g, later), job, k)
      {
        if ListensAt(g, job, k) {
          SettleKeepsListening(g, job, key, k);
        }
      }
    }
  }

  lemma SettleSoundAll(g: Fleet, key: string)
    requires Sound(g)
    ensures Sound(Settle(g, key))
  {
    hide Settle, SoundAt;
    forall k ensures SoundAt(Settle(g, key), k) {
      SettleSound(g, key, k);
    }
  }

  lemma FitsAtFirst(f: Fleet, job: Job)
    requires AtRest(f)
    ensures Fits(f, f, job.groups.Keys, job)
  {
    hide Holds;
  }

  lemma ApartServes(f: Fleet, moves: seq<Move>, later: seq<string>, job: Job)
    requires Posed(job) && Sound(f) && AtRest(f) && Apart(f, job)
    requires Schedule(moves, job.groups.Keys) && Play(f, moves, job).1 && job.groups.Keys <= Elements(later)
    ensures AllServed(Finish(Play(f, moves, job).0, job, later), job)
  {
    hide Posed, Sound, Play, Apart, DropStale, SettleAll;
    var g := Play(f, moves, job).0;
    FitsAtFirst(f, job);
    PlayFits(f, f, moves, job.groups.Keys, job);
    PlaySound(f, moves, job);
    DropSound(g, job.groups.Keys);
    FitsDrop(f, g, job);
    SettleAllServes(f, DropStale(g, job.groups.Keys), job, later);
    forall key | key in job.groups ensures ServedAt(Finish(g, job, later), job, key) {
      assert FitsAt(f, Finish(g, job, later), {}, job, key);
      assert key in Elements(later);
    }
  }

  // ---------- and when one is not ----------

  /** An engine whose child is not starting is left alone until its key is visited. */
  lemma {:induction false} PlayUntouched(f: Fleet, moves: seq<Move>, rest: set<string>, job: Job, key: string)
    requires Schedule(moves, rest) && key !in rest && !Pending(Get(f.engines, key))
    ensures Get(Play(f, moves, job).0.engines, key) == Get(f.engines, key)
    decreases moves
  {
    hide Visit, Settle;
    if moves != [] {
      var m := moves[0];
      StepUntouched(f, m, job, key);
      PlayUntouched(Step(f, m, job).0, moves[1..], RestAfter(rest, m), job, key);
    }
  }

  lemma StepUntouched(f: Fleet, m: Move, job: Job, key: string)
    requires m != Visits(key) && !Pending(Get(f.engines, key))
    ensures Get(Step(f, m, job).0.engines, key) == Get(f.engines, key)
  {
    hide Visit, Settle;
    if m.Settles? {
      SettleUntouched(f, m.key, key);
    } else if m.key in job.groups {
      VisitElsewhereKeeps(f, m.key, job.groups[m.key], job.settings, job.env);
    }
  }

  lemma SettleUntouched(f: Fleet, key: string, k: string)
    requires !Pending(Get(f.engines, k))
    ensures Get(Settle(f, key).engines, k) == Get(f.engines, k)
  {
  }

  lemma {:induction false} SettleAllUntouched(f: Fleet, later: seq<string>, key: string)
    requires !Pending(Get(f.engines, key))
    ensures Get(SettleAll(f, later).engines, key) == Get(f.engines, key)
    decreases later
  {
    hide Settle;
    if later != [] {
      SettleUntouched(f, later[0], key);
      SettleAllUntouched(Settle(f, later[0]), later[1..], key);
    }
  }

  lemma FinishUntouched(f: Fleet, job: Job, later: seq<string>, key: string)
    requires key in job.groups && !Pending(Get(f.engines, key))
    ensures Get(Finish(f, job, later).engines, key) == Get(f.engines, key)
  {
    hide DropStale, SettleAll;
    DroppedAt(f, job.groups.Keys, key);
    SettleAllUntouched(DropStale(f, job.groups.Keys), later, key);
  }

  lemma {:induction false} SettleAllExclusive(f: Fleet, later: seq<string>)
    requires Sound(f) && Exclusive(f)
    ensures Sound(SettleAll(f, later)) && Exclusive(SettleAll(f, later))
    decreases later
  {
    hide Settle, SoundEngine, Exclusive;
    if later != [] {
      assert SoundAt(f, later[0]);
      SettleSoundAll(f, later[0]);
      SettleExclusive(f, later[0]);
      SettleAllExclusive(Settle(f, later[0]), later[1..]);
    }
  }

  lemma ServedHolds(f: Fleet, job: Job, key: string)
    requires Sound(f) && key in job.groups && ServedAt(f, job, key)
    ensures HeldAt(f, key) == NeedsOf(job, key) || job.groups[key] == []
  {
    hide SocketsOf, Sound, Possible, XrayAccounts.Remembers;
    assert SoundAt(f, key) by { SoundKey(f, key); }
    if key == SHARED_XRAY_KEY {
      StrippedSockets(job.groups[key]);
    } else {
      HoldsElsewhere(key, f.engines[key]);
    }
  }

  lemma SoundKey(f: Fleet, key: string)
    requires Sound(f)
    ensures SoundAt(f, key)
  {
  }

  /** Two groups that need the same socket are not both served, whatever the schedule. */
  lemma ClashUnserved(f: Fleet, moves: seq<Move>, later: seq<string>, job: Job, key: string, k: string)
    requires Posed(job) && Sound(f) && Exclusive(f) && key != k && !(NeedsOf(job, key) !! NeedsOf(job, k))
    ensures !AllServed(Finish(Play(f, moves, job).0, job, later), job)
  {
    hide Posed, Sound, Exclusive, Play, DropStale, SettleAll, NeedsOf, ServedAt, Holds;
    var g := Play(f, moves, job).0;
    PlaySound(f, moves, job);
    PlayExclusive(f, moves, job);
    DropSound(g, job.groups.Keys);
    var h := DropStale(g, job.groups.Keys);
    SettleAllExclusive(h, later);
    ExclusivePairs(Finish(g, job, later));
    NeedsMean(job, key);
    NeedsMean(job, k);
    if ServedAt(Finish(g, job, later), job, key) && ServedAt(Finish(g, job, later), job, k) {
      ServedHolds(Finish(g, job, later), job, key);
      ServedHolds(Finish(g, job, later), job, k);
      assert false;
    }
  }

  lemma NeedsMean(job: Job, key: string)
    requires NeedsOf(job, key) != {}
    ensures key in job.groups && job.groups[key] != []
  {
  }

  /** A child that settles while one of its sockets is taken has exited, and its inbound stays unserved. */
  lemma TakenUnserved(f: Fleet, later: seq<string>, job: Job, key: string) returns (moves: seq<Move>)
    requires Posed(job) && Sound(f) && key in job.groups && key != SHARED_XRAY_KEY &&
             !(NeedsOf(job, key) !! Taken(f.engines, key))
    ensures Schedule(moves, job.groups.Keys)
    ensures !(Play(f, moves, job).1 && AllServed(Finish(Play(f, moves, job).0, job, later), job))
  {
    hide Posed, Sound, Step, Finish, Taken, Spawns;
    var rest := VisitAll(job.groups.Keys - {key});
    moves := [Visits(key), Settles(key)] + rest;
    VisitAllIsSchedule(job.groups.Keys - {key});
    assert moves[1..] == [Settles(key)] + rest && ([Settles(key)] + rest)[1..] == rest;
    var g := Step(f, Visits(key), job).0;
    if Step(f, Visits(key), job).1 {
      var h := Step(g, Settles(key), job).0;
      SettlesUnserved(f, job, key);
      PlayUntouched(h, rest, job.groups.Keys - {key}, job, key);
      FinishUntouched(Play(h, rest, job).0, job, later, key);
      assert Get(Finish(Play(f, moves, job).0, job, later).engines, key) == Get(h.engines, key);
    }
  }

  lemma SettlesUnserved(f: Fleet, job: Job, key: string)
    requires Posed(job) && Sound(f) && key in job.groups && key != SHARED_XRAY_KEY &&
             !(NeedsOf(job, key) !! Taken(f.engines, key))
    requires Step(f, Visits(key), job).1
    ensures var h := Step(Step(f, Visits(key), job).0, Settles(key), job);
            h.1 && key in h.0.engines && h.0.engines[key].child == NoChild
  {
    hide Visit, SoundEngine, Spawns, Taken, Settle;
    assert SoundAt(f, key) && Grouping(key, job.groups[key]);
    var g := Visit(f, key, job.groups[key], job.settings, job.env).0;
    VisitElsewhere(f, key, job.groups[key], job.settings, job.env);
    VisitElsewhereKeeps(f, key, job.groups[key], job.settings, job.env);
    SameTaken(f.engines, g.engines, key);
    SettleAt(g, key);
  }

  /** A dead instance that is kept stays dead. */
  lemma DeadUnserved(f: Fleet, later: seq<string>, job: Job) returns (moves: seq<Move>)
    requires Posed(job) && Sound(f) && SHARED_XRAY_KEY in job.groups
    requires Keeps(Get(f.engines, SHARED_XRAY_KEY), job.groups[SHARED_XRAY_KEY], job.settings) &&
             !f.engines[SHARED_XRAY_KEY].xray.live
    ensures Schedule(moves, job.groups.Keys)
    ensures !(Play(f, moves, job).1 && AllServed(Finish(Play(f, moves, job).0, job, later), job))
  {
    hide Posed, Sound, Visit, Finish, SoundEngine, XrayAccounts.Hot, SharedSucceeds;
    var rest := VisitAll(job.groups.Keys - {SHARED_XRAY_KEY});
    moves := [Visits(SHARED_XRAY_KEY)] + rest;
    VisitAllIsSchedule(job.groups.Keys - {SHARED_XRAY_KEY});
    assert moves[1..] == rest;
    SoundHere(f, job);
    VisitShared(f, job.groups[SHARED_XRAY_KEY], job.settings, job.env);
    var g := Step(f, Visits(SHARED_XRAY_KEY), job).0;
    if Step(f, Visits(SHARED_XRAY_KEY), job).1 {
      assert SoundAt(g, SHARED_XRAY_KEY);
      SharedHasNoChild(g);
      PlayUntouched(g, rest, job.groups.Keys - {SHARED_XRAY_KEY}, job, SHARED_XRAY_KEY);
      FinishUntouched(Play(g, rest, job).0, job, later, SHARED_XRAY_KEY);
      assert Get(Finish(Play(f, moves, job).0, job, later).engines, SHARED_XRAY_KEY) == Get(g.engines, SHARED_XRAY_KEY);
    }
  }

  /** Where sockets overlap, some schedule leaves an inbound unserved or fails. */
  lemma UnservedSomewhere(f: Fleet, later: seq<string>, job: Job) returns (moves: seq<Move>)
    requires Posed(job) && Sound(f) && Exclusive(f) && !Apart(f, job)
    ensures Schedule(moves, job.groups.Keys)
    ensures !(Play(f, moves, job).1 && AllServed(Finish(Play(f, moves, job).0, job, later), job))
  {
    hide Posed, Sound, Exclusive, Play, Finish, Taken, NeedsOf, Keeps, AllServed;
    if key :| key in job.groups && key != SHARED_XRAY_KEY && !(NeedsOf(job, key) !! Taken(f.engines, key)) {
      moves := TakenUnserved(f, later, job, key);
    } else if key :| key in job.groups && key != SHARED_XRAY_KEY && !ApartAt(f, job, key) {
      var k :| k != key && !(NeedsOf(job, key) !! NeedsOf(job, k));
      moves := VisitAll(job.groups.Keys);
      VisitAllIsSchedule(job.groups.Keys);
      ClashUnserved(f, moves, later, job, key, k);
    } else {
      moves := DeadUnserved(f, later, job);
    }
  }

  /** An update of a fleet at rest succeeds in every schedule and leaves every inbound served once all children have
      settled, if and only if it succeeds in every schedule, each group that needs a child has its sockets for itself,
      before and after, and an Xray instance that is kept is alive. A renamed sing-box inbound that keeps its port is
      not such a group: the engine with its old key still holds the socket. */
  lemma ServesAlwaysExactly(f: Fleet, job: Job)
    requires Posed(job) && Sound(f) && Exclusive(f) && AtRest(f)
    ensures ServesAlways(f, job) <==> EveryOrder(f, job) && Apart(f, job)
  {
    hide Posed, Sound, Exclusive, AtRest, Play, Finish, EveryOrder, Apart, AllServed;
    SucceedsAlwaysExactly(f, job);
    var later := SortedStrings(job.groups.Keys);
    if ServesAlways(f, job) {
      forall moves | Schedule(moves, job.groups.Keys) ensures Play(f, moves, job).1 {
        assert Elements(later) == job.groups.Keys;
      }
      if !Apart(f, job) {
        var moves := UnservedSomewhere(f, later, job);
      }
    } else if EveryOrder(f, job) && Apart(f, job) {
      forall moves, later: seq<string> | Schedule(moves, job.groups.Keys) && job.groups.Keys <= Elements(later)
        ensures Play(f, moves, job).1 && AllServed(Finish(Play(f, moves, job).0, job, later), job)
      {
        ApartServes(f, moves, later, job);
      }
    }
  }

  lemma ExitKeeps(f: Fleet, key: string)
    requires Sound(f) && Exclusive(f) && Tracked(f)
    ensures Sound(Exit(f, key)) && Exclusive(Exit(f, key)) && Tracked(Exit(f, key))
  {
    hide Tracked, XrayAccounts.Remembers, Taken, SocketsOf, Possible;
    if key in f.engines {
      ReplaceTracked(f, key, f.engines[key].(child := NoChild));
      forall k ensures SoundAt(Exit(f, key), k) {
        assert SoundAt(f, k);
      }
      assert Holds(Exit(f, key).engines[key]) <= Holds(f.engines[key]);
      ExclusiveAfter(f, Exit(f, key), key);
    }
  }

  lemma {:induction false} PlayTracked(f: Fleet, moves: seq<Move>, job: Job)
    requires Tracked(f)
    ensures Tracked(Play(f, moves, job).0)
    decreases moves
  {
    hide Tracked, Visit, Settle;
    if moves != [] {
      var m := moves[0];
      if m.Settles? {
        SettleTracked(f, m.key);
      } else if m.key in job.groups {
        VisitTracked(f, m.key, job.groups[m.key], job.settings, job.env);
      }
      PlayTracked(Step(f, m, job).0, moves[1..], job);
    }
  }

  // ---------- a stale engine in the way ----------

  /** A stale engine holds a socket of the shared group, and no Xray engine is kept. */
  ghost predicate Stuck(f: Fleet, job: Job, stale: string) {
    && SHARED_XRAY_KEY in job.groups && stale in f.engines && stale !in job.groups
    && !(Holds(f.engines[stale]) !! SocketsOf(job.groups[SHARED_XRAY_KEY]))
    && !Keeps(Get(f.engines, SHARED_XRAY_KEY), job.groups[SHARED_XRAY_KEY], job.settings)
  }

  lemma StuckTakes(f: Fleet, job: Job, stale: string)
    requires Stuck(f, job, stale)
    ensures !(SocketsOf(job.groups[SHARED_XRAY_KEY]) !! Taken(f.engines, SHARED_XRAY_KEY))
  {
    hide Holds, Taken, SocketsOf, Keeps;
    NotTaken(f.engines, SHARED_XRAY_KEY, SocketsOf(job.groups[SHARED_XRAY_KEY]));
  }

  lemma StepStuck(f: Fleet, m: Move, job: Job, stale: string)
    requires Posed(job) && Sound(f) && Stuck(f, job, stale)
    ensures Stuck(Step(f, m, job).0, job, stale) && (m == Visits(SHARED_XRAY_KEY) ==> !Step(f, m, job).1)
  {
    hide Visit, Settle, Holds, Taken, SocketsOf, SoundEngine, Starts, Keeps, Posed, Sound;
    var g := Step(f, m, job).0;
    StuckTakes(f, job, stale);
    SoundHere(f, job);
    StaleHasNoMove(f, m, job, stale);
    if m.Visits? && m.key in job.groups {
      VisitElsewhereKeeps(f, m.key, job.groups[m.key], job.settings, job.env);
      if m.key == SHARED_XRAY_KEY {
        VisitShared(f, job.groups[m.key], job.settings, job.env);
      }
    } else if m.Settles? {
      SharedHasNoChild(f);
      SettleUntouched(f, m.key, SHARED_XRAY_KEY);
    }
    assert m != Visits(SHARED_XRAY_KEY) ==> Get(g.engines, SHARED_XRAY_KEY) == Get(f.engines, SHARED_XRAY_KEY);
  }

  lemma StaleHasNoMove(f: Fleet, m: Move, job: Job, stale: string)
    requires Sound(f) && Stuck(f, job, stale)
    ensures Get(Step(f, m, job).0.engines, stale) == Get(f.engines, stale)
  {
    hide Visit, Settle, Taken, SocketsOf, Keeps;
    assert SoundAt(f, stale);
    HoldsElsewhere(stale, f.engines[stale]);
    if m != Visits(stale) {
      StepUntouched(f, m, job, stale);
    }
  }

  lemma {:induction false} PlayStuck(f: Fleet, moves: seq<Move>, rest: set<string>, job: Job, stale: string)
    requires Posed(job) && Sound(f) && Stuck(f, job, stale) && Schedule(moves, rest)
    ensures Stuck(Play(f, moves, job).0, job, stale) && (SHARED_XRAY_KEY in rest ==> !Play(f, moves, job).1)
    decreases moves
  {
    hide Posed, Sound, Stuck, Step;
    if moves != [] {
      StepSound(f, moves[0], job);
      StepStuck(f, moves[0], job, stale);
      PlayStuck(Step(f, moves[0], job).0, moves[1..], RestAfter(rest, moves[0]), job, stale);
    }
  }

  /** The same engines for other accounts or another environment. */
  lemma StuckAlike(f: Fleet, job: Job, other: Job, stale: string)
    requires Stuck(f, job, stale) && other.groups.Keys == job.groups.Keys && other.settings == job.settings
    requires XrayAccounts.Stripped(other.groups[SHARED_XRAY_KEY]) == XrayAccounts.Stripped(job.groups[SHARED_XRAY_KEY])
    ensures Stuck(f, other, stale)
  {
    hide Holds, SocketsOf, XrayAccounts.Stripped;
    var a, b := job.groups[SHARED_XRAY_KEY], other.groups[SHARED_XRAY_KEY];
    StrippedSockets(a);
    StrippedSockets(b);
    WireguardAlike(a, b);
  }

  lemma WireguardAlike(a: seq<Inbound>, b: seq<Inbound>)
    requires XrayAccounts.Stripped(a) == XrayAccounts.Stripped(b)
    ensures (exists ib :: ib in a && ib.protocol.Wireguard?) <==> (exists ib :: ib in b && ib.protocol.Wireguard?)
  {
    XrayAccounts.SameShape(a, b);
    if ib :| ib in a && ib.protocol.Wireguard? {
      var i :| 0 <= i < |a| && a[i] == ib;
      assert b[i] in b && b[i].protocol == a[i].protocol;
    }
    if ib :| ib in b && ib.protocol.Wireguard? {
      var i :| 0 <= i < |b| && b[i] == ib;
      assert a[i] in a && a[i].protocol == b[i].protocol;
    }
  }
}
