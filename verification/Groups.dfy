/** How the engine manager groups inbounds (node/internal/engine/engine.go): the engine key of an inbound, the
    kind of engine that a group gets, and the groups of a configuration. */
module Groups {
  import opened Common
  import opened Configs

  datatype Kind = XrayEngine | SingBoxEngine | TrustTunnelEngine

  type Groups = map<string, seq<Inbound>>

  // ---------- keys and kinds ----------

  function Number(n: int): string {
    if n < 0 then "-" + Decimal(-n) else Decimal(n)
  }

  const SHARED_XRAY_KEY: string := "xray"

  /** engineKeyForInbound. */
  function EngineKey(ib: Inbound): string {
    match ib.protocol
    case TrustTunnel => "trusttunnel:" + ib.name + ":" + ib.listen + ":" + Number(ib.port)
    case ReverseProxy(_, _) => SHARED_XRAY_KEY
    case TProxy => SHARED_XRAY_KEY
    case Wireguard => SHARED_XRAY_KEY
    case _ =>
      match ib.core
      case SingBox => "singbox:" + ib.name
      case Xray => SHARED_XRAY_KEY
      case Unspecified => ""
  }

  /** newEngineForInbounds looks at the first inbound only, and not at all its protocols. */
  function NewKind(group: seq<Inbound>): Option<Kind> {
    if group == [] then None
    else if group[0].protocol.TrustTunnel? then Some(TrustTunnelEngine)
    else if group[0].protocol.Wireguard? then Some(XrayEngine)
    else match group[0].core
      case SingBox => Some(SingBoxEngine)
      case Xray => Some(XrayEngine)
      case Unspecified => None
  }

  /** engineMatchesInbound. */
  predicate Matches(kind: Kind, ib: Inbound) {
    match kind
    case TrustTunnelEngine => ib.protocol.TrustTunnel?
    case XrayEngine => ib.protocol.ReverseProxy? || ib.protocol.TProxy? || ib.protocol.Wireguard? || ib.core.Xray?
    case SingBoxEngine => !ib.protocol.Wireguard? && !ib.protocol.TrustTunnel? && ib.core.SingBox?
  }

  predicate MatchesAll(kind: Kind, group: seq<Inbound>) {
    group != [] && forall ib :: ib in group ==> Matches(kind, ib)
  }

  predicate SingBoxSupports(p: Protocol) {
    p.Vless? || p.Hysteria2? || p.Naiveproxy? || p.Socks? || p.Shadowsocks?
  }

  /** The groups that a sing-box or TrustTunnel engine does not reject for their shape. */
  predicate Accepts(kind: Kind, group: seq<Inbound>) {
    && |group| == 1
    && if kind.SingBoxEngine? then SingBoxSupports(group[0].protocol) else group[0].protocol.TrustTunnel?
  }

  /** The kind that serves a group, given the engine that holds its key now. */
  function Chosen(held: Option<Kind>, group: seq<Inbound>): Option<Kind> {
    if held.Some? && MatchesAll(held.value, group) then held else NewKind(group)
  }

  // ---------- grouping ----------

  function Active(accounts: seq<Account>, now: int): seq<Account> {
    if accounts == [] then [] else
      var a := accounts[|accounts| - 1];
      Active(accounts[..|accounts| - 1], now) + if a.expiryTime == 0 || a.expiryTime > now then [a] else []
  }

  /** preparedInboundConfig: an inbound without accounts of its own gets the active ones. */
  function Prepared(ib: Inbound, active: seq<Account>): Inbound {
    if ib.accounts == [] then ib.(accounts := active) else ib
  }

  /** The group of a key: the enabled inbounds that have it, prepared, in the order of the configuration. */
  function GroupOf(inbounds: seq<Inbound>, active: seq<Account>, key: string): seq<Inbound> {
    if inbounds == [] then [] else
      var ib := inbounds[|inbounds| - 1];
      GroupOf(inbounds[..|inbounds| - 1], active, key) + if ib.enabled && EngineKey(ib) == key
        then [Prepared(ib, active)] else []
  }

  function Keys(inbounds: seq<Inbound>): set<string> {
    set ib | ib in inbounds && ib.enabled :: EngineKey(ib)
  }

  function GroupsOf(inbounds: seq<Inbound>, active: seq<Account>): Groups {
    map key | key in Keys(inbounds) :: GroupOf(inbounds, active, key)
  }

  function GroupFor(config: Config, now: int, key: string): seq<Inbound> {
    GroupOf(config.inbounds, Active(config.accounts, now), key)
  }

  function Grouped(config: Config, now: int): Groups {
    GroupsOf(config.inbounds, Active(config.accounts, now))
  }

  // ---------- facts about groups ----------

  /** kept lists the elements of all at these ascending positions. */
  ghost predicate Picks<T(!new)>(all: seq<T>, kept: seq<T>, at: seq<nat>) {
    && |at| == |kept|
    && (forall j, k :: 0 <= j < k < |at| ==> at[j] < at[k])
    && forall j :: 0 <= j < |at| ==> at[j] < |all| && kept[j] == all[at[j]]
  }

  /** kept lists the accounts without an expiry time and those that expire later, in order and as often as all does. */
  ghost predicate Unexpired(all: seq<Account>, kept: seq<Account>, now: int) {
    exists at: seq<nat> :: Picks(all, kept, at) &&
      forall i :: 0 <= i < |all| ==> (i in at <==> all[i].expiryTime == 0 || now < all[i].expiryTime)
  }

  lemma PicksMore<T(!new)>(front: seq<T>, last: T, kept: seq<T>, at: seq<nat>)
    requires Picks(front, kept, at)
    ensures Picks(front + [last], kept, at) && Picks(front + [last], kept + [last], at + [|front|])
    ensures forall i :: 0 <= i < |front| ==> (i in at + [|front|] <==> i in at)
    ensures |front| !in at
  {
  }

  lemma {:induction false} ActivePositions(accounts: seq<Account>, now: int) returns (at: seq<nat>)
    ensures Picks(accounts, Active(accounts, now), at)
    ensures forall i :: 0 <= i < |accounts| ==>
              (i in at <==> accounts[i].expiryTime == 0 || now < accounts[i].expiryTime)
  {
    hide Picks;
    at := [];
    if accounts == [] {
      NothingPicked(accounts);
    } else {
      var front, last := accounts[..|accounts| - 1], accounts[|accounts| - 1];
      assert accounts == front + [last] && forall i :: 0 <= i < |front| ==> accounts[i] == front[i];
      at := ActivePositions(front, now);
      PicksMore(front, last, Active(front, now), at);
      if last.expiryTime == 0 || last.expiryTime > now {
        assert Active(accounts, now) == Active(front, now) + [last];
        at := at + [|front|];
        assert |front| in at;
      } else {
        assert Active(accounts, now) == Active(front, now);
      }
    }
  }

  lemma NothingPicked<T(!new)>(all: seq<T>)
    ensures Picks(all, [], [])
  {
  }

  lemma ActiveIsUnexpired(accounts: seq<Account>, now: int)
    ensures Unexpired(accounts, Active(accounts, now), now)
  {
    hide Active;
    var at := ActivePositions(accounts, now);
  }

  ghost predicate Keyed(group: seq<Inbound>, key: string) {
    forall ib :: ib in group ==> EngineKey(ib) == key
  }

  lemma KeyIgnoresAccounts(a: Inbound, b: Inbound)
    requires a.(accounts := []) == b.(accounts := [])
    ensures EngineKey(a) == EngineKey(b)
  {
  }

  lemma {:induction false} GroupIsKeyed(inbounds: seq<Inbound>, active: seq<Account>, key: string)
    ensures Keyed(GroupOf(inbounds, active, key), key)
    ensures GroupOf(inbounds, active, key) != [] <==> key in Keys(inbounds)
  {
    hide EngineKey;
    if inbounds != [] {
      var front, last := inbounds[..|inbounds| - 1], inbounds[|inbounds| - 1];
      assert inbounds == front + [last];
      GroupIsKeyed(front, active, key);
      KeysAppend(front, last);
      KeyIgnoresAccounts(last, Prepared(last, active));
    }
  }

  lemma {:induction false} GroupIsEnabled(inbounds: seq<Inbound>, active: seq<Account>, key: string)
    ensures forall ib :: ib in GroupOf(inbounds, active, key) ==> ib.enabled
  {
    hide EngineKey;
    if inbounds != [] {
      GroupIsEnabled(inbounds[..|inbounds| - 1], active, key);
    }
  }

  lemma KeysAppend(front: seq<Inbound>, last: Inbound)
    ensures Keys(front + [last]) == Keys(front) + if last.enabled then {EngineKey(last)} else {}
  {
    var all := front + [last];
    assert forall ib :: ib in all <==> ib in front || ib == last;
  }

  /** The position of the i-th inbound among the enabled ones with its key. */
  function Rank(inbounds: seq<Inbound>, i: nat, key: string): nat
    requires i <= |inbounds|
  {
    if i == 0 then 0
      else Rank(inbounds, i - 1, key) + if inbounds[i - 1].enabled && EngineKey(inbounds[i - 1]) == key then 1 else 0
  }

  /** Every enabled inbound is in the group of its key at the place its order gives it, the groups have no
      other members, and so no inbound is in two groups or twice in one. */
  lemma {:induction false} GroupMembers(inbounds: seq<Inbound>, active: seq<Account>, i: nat)
    requires i < |inbounds| && inbounds[i].enabled
    ensures var key := EngineKey(inbounds[i]);
            var group, r := GroupOf(inbounds, active, key), Rank(inbounds, i, key);
            |group| == Rank(inbounds, |inbounds|, key) && r < |group| && group[r] == Prepared(inbounds[i], active)
  {
    GroupSize(inbounds, active, EngineKey(inbounds[i]));
    var front, key := inbounds[..|inbounds| - 1], EngineKey(inbounds[i]);
    GroupSize(front, active, key);
    RankOfPrefix(inbounds, |front|, |front|, key);
    RankOfPrefix(inbounds, |front|, i, key);
    if i < |front| {
      GroupMembers(front, active, i);
    }
  }

  lemma {:induction false} RankOfPrefix(inbounds: seq<Inbound>, n: nat, i: nat, key: string)
    requires i <= n <= |inbounds|
    ensures Rank(inbounds[..n], i, key) == Rank(inbounds, i, key)
  {
    if i > 0 {
      RankOfPrefix(inbounds, n, i - 1, key);
    }
  }

  lemma {:induction false} GroupSize(inbounds: seq<Inbound>, active: seq<Account>, key: string)
    ensures |GroupOf(inbounds, active, key)| == Rank(inbounds, |inbounds|, key)
  {
    if inbounds != [] {
      var n := |inbounds| - 1;
      GroupSize(inbounds[..n], active, key);
      RankOfPrefix(inbounds, n, n, key);
    }
  }

  lemma KeyShapes(ib: Inbound)
    ensures ib.protocol.TrustTunnel? ==> "trusttunnel:" <= EngineKey(ib)
    ensures EngineKey(ib) == SHARED_XRAY_KEY <==>
            ib.protocol.ReverseProxy? || ib.protocol.TProxy? || ib.protocol.Wireguard? ||
              (!ib.protocol.TrustTunnel? && ib.core.Xray?)
    ensures "singbox:" <= EngineKey(ib) ==>
            ib.core.SingBox? && !ib.protocol.TrustTunnel? && !ib.protocol.ReverseProxy? && !ib.protocol.TProxy? &&
              !ib.protocol.Wireguard?
    ensures "trusttunnel:" <= EngineKey(ib) ==> ib.protocol.TrustTunnel?
    ensures EngineKey(ib) == "" || EngineKey(ib) == SHARED_XRAY_KEY || "singbox:" <= EngineKey(ib) ||
            "trusttunnel:" <= EngineKey(ib)
  {
    var k := EngineKey(ib);
    if ib.protocol.TrustTunnel? {
      assert k[..12] == "trusttunnel:";
      assert k[0] == 't';
    } else if k != "" && k != SHARED_XRAY_KEY {
      assert k[..8] == "singbox:";
      assert k[0] == 's';
    } else {
      assert k != "" ==> k[0] == 'x';
    }
    assert "trusttunnel:"[0] == 't' && "singbox:"[0] == 's' && "xray"[0] == 'x';
  }

  lemma {:induction false} DecimalTells(m: nat, n: nat)
    ensures Decimal(m) == Decimal(n) <==> m == n
    ensures |Decimal(m)| >= 1 && Decimal(m)[0] != '-'
    ensures m >= 10 ==> |Decimal(m)| >= 2
    decreases m + n
  {
    if m >= 10 && n >= 10 {
      DecimalTells(m / 10, n / 10);
      var x, y := Decimal(m), Decimal(n);
      assert x[..|x| - 1] == Decimal(m / 10) && y[..|y| - 1] == Decimal(n / 10);
      assert x[|x| - 1] == Digit(m % 10) && y[|y| - 1] == Digit(n % 10);
    } else if m >= 10 {
      DecimalTells(m / 10, 0);
    } else if n >= 10 {
      DecimalTells(n / 10, 0);
    } else {
      assert Decimal(m)[0] == Digit(m) && Decimal(n)[0] == Digit(n);
    }
  }

  lemma NumberTells(m: int, n: int)
    ensures Number(m) == Number(n) <==> m == n
  {
    DecimalTells(if m < 0 then -m else m, if n < 0 then -n else n);
    DecimalTells(if n < 0 then -n else n, 0);
    if m < 0 && n < 0 {
      assert Number(m)[1..] == Decimal(-m) && Number(n)[1..] == Decimal(-n);
    }
  }

  /** Inbounds that run in the shared Xray instance. */
  ghost predicate RunsInXray(ib: Inbound) {
    ib.protocol.ReverseProxy? || ib.protocol.TProxy? || ib.protocol.Wireguard? ||
    (!ib.protocol.TrustTunnel? && ib.core.Xray?)
  }

  ghost predicate RunsInSingBox(ib: Inbound) {
    !RunsInXray(ib) && !ib.protocol.TrustTunnel? && ib.core.SingBox?
  }

  /** Two inbounds share an engine if and only if both run in Xray; or both run in sing-box under one name; or both
      are of TrustTunnel and do not differ in name, listen address or port alone; or no engine takes either. */
  lemma SharesEngineExactly(a: Inbound, b: Inbound)
    ensures !(a.protocol.TrustTunnel? && b.protocol.TrustTunnel?) ==>
              (EngineKey(a) == EngineKey(b) <==>
               || (RunsInXray(a) && RunsInXray(b))
               || (RunsInSingBox(a) && RunsInSingBox(b) && a.name == b.name)
               || (EngineKey(a) == "" && EngineKey(b) == ""))
    ensures EngineKey(a) == "xray" <==> RunsInXray(a)
    ensures EngineKey(a) == "" <==>
              !a.protocol.TrustTunnel? && !RunsInXray(a) && !RunsInSingBox(a)
    ensures a.protocol.TrustTunnel? && b.protocol.TrustTunnel? && a.listen == b.listen && a.port == b.port ==>
              (EngineKey(a) == EngineKey(b) <==> a.name == b.name)
    ensures a.protocol.TrustTunnel? && b.protocol.TrustTunnel? && a.name == b.name && a.port == b.port ==>
              (EngineKey(a) == EngineKey(b) <==> a.listen == b.listen)
    ensures a.protocol.TrustTunnel? && b.protocol.TrustTunnel? && a.name == b.name && a.listen == b.listen ==>
              (EngineKey(a) == EngineKey(b) <==> a.port == b.port)
  {
    KeyLetters(a);
    KeyLetters(b);
    if a.protocol.TrustTunnel? && b.protocol.TrustTunnel? {
      hide Number;
      NumberTells(a.port, b.port);
      Cancel("trusttunnel:", a.name, b.name, ":" + a.listen + ":" + Number(a.port));
      Cancel("trusttunnel:" + a.name + ":", a.listen, b.listen, ":" + Number(a.port));
      Cancel("trusttunnel:" + a.name + ":" + a.listen + ":", Number(a.port), Number(b.port), "");
      KeyText(a);
      KeyText(b);
    } else if RunsInSingBox(a) && RunsInSingBox(b) {
      Cancel("singbox:", a.name, b.name, "");
      assert "singbox:" + a.name + "" == EngineKey(a) && "singbox:" + b.name + "" == EngineKey(b);
    }
  }

  lemma KeyText(ib: Inbound)
    requires ib.protocol.TrustTunnel?
    ensures EngineKey(ib) == "trusttunnel:" + ib.name + (":" + ib.listen + ":" + Number(ib.port))
         == "trusttunnel:" + ib.name + ":" + ib.listen + (":" + Number(ib.port))
         == "trusttunnel:" + ib.name + ":" + ib.listen + ":" + Number(ib.port) + ""
  {
    hide Number;
  }

  lemma KeyLetters(ib: Inbound)
    ensures ib.protocol.TrustTunnel? ==> EngineKey(ib) != "" && EngineKey(ib)[0] == 't'
    ensures RunsInXray(ib) ==> EngineKey(ib) != "" && EngineKey(ib)[0] == 'x' && EngineKey(ib) == SHARED_XRAY_KEY
    ensures RunsInSingBox(ib) ==> EngineKey(ib) != "" && EngineKey(ib)[0] == 's'
    ensures !ib.protocol.TrustTunnel? && !RunsInXray(ib) && !RunsInSingBox(ib) ==> EngineKey(ib) == ""
  {
    hide Number;
    if ib.protocol.TrustTunnel? {
      KeyText(ib);
    }
  }

  /** The kind that belongs to a key. */
  function KindOfKey(key: string): Kind {
    if "trusttunnel:" <= key then TrustTunnelEngine else if key == SHARED_XRAY_KEY then XrayEngine else SingBoxEngine
  }

  /** The engines that can hold a key: creating one goes by the first inbound of a group with that key. */
  predicate Possible(key: string, held: Option<Kind>) {
    held.Some? ==> if key == SHARED_XRAY_KEY then held != Some(TrustTunnelEngine) else held == Some(KindOfKey(key))
  }

  lemma FirstLetters(key: string)
    ensures "trusttunnel:" <= key ==> key[0] == 't'
    ensures "singbox:" <= key ==> key[0] == 's'
    ensures key == SHARED_XRAY_KEY ==> key[0] == 'x'
  {
    assert "trusttunnel:"[0] == 't' && "singbox:"[0] == 's' && "xray"[0] == 'x';
  }

  lemma NewKindIsPossible(group: seq<Inbound>, key: string)
    requires group != [] && Keyed(group, key) && key != ""
    ensures Possible(key, NewKind(group))
    ensures key != SHARED_XRAY_KEY ==> NewKind(group) == Some(KindOfKey(key))
  {
    assert group[0] in group;
    KeyShapes(group[0]);
    FirstLetters(key);
  }

  lemma SharedGroup(group: seq<Inbound>)
    requires group != [] && Keyed(group, SHARED_XRAY_KEY)
    ensures MatchesAll(XrayEngine, group)
    ensures NewKind(group) == Some(SingBoxEngine) ==> !SingBoxSupports(group[0].protocol)
    ensures MatchesAll(SingBoxEngine, group) ==> NewKind(group) == Some(SingBoxEngine)
  {
    forall ib | ib in group ensures Matches(XrayEngine, ib) && !ib.protocol.TrustTunnel? {
      KeyShapes(ib);
      FirstLetters(SHARED_XRAY_KEY);
    }
    assert group[0] in group;
    KeyShapes(group[0]);
  }

  /** Outside the shared key, whatever engine holds the key, the kind is that of the key. */
  lemma ChosenElsewhere(held: Option<Kind>, group: seq<Inbound>, key: string)
    requires group != [] && Keyed(group, key) && key != "" && key != SHARED_XRAY_KEY && Possible(key, held)
    ensures Chosen(held, group) == Some(KindOfKey(key)) && KindOfKey(key) != XrayEngine
  {
    NewKindIsPossible(group, key);
  }

  /** At the shared key an Xray engine is kept, and otherwise the first inbound decides. */
  lemma ChosenAtShared(held: Option<Kind>, group: seq<Inbound>)
    requires group != [] && Keyed(group, SHARED_XRAY_KEY) && Possible(SHARED_XRAY_KEY, held)
    ensures Chosen(held, group) == if held == Some(XrayEngine) then held else NewKind(group)
  {
    SharedGroup(group);
    if held.Some? {
      match held.value
      case XrayEngine =>
      case SingBoxEngine =>
    }
  }

  // ---------- one more inbound ----------

  lemma GroupsAreKeyed(inbounds: seq<Inbound>, active: seq<Account>)
    ensures forall key :: key in GroupsOf(inbounds, active) ==>
              GroupsOf(inbounds, active)[key] != [] && Keyed(GroupsOf(inbounds, active)[key], key)
  {
    forall key | key in Keys(inbounds)
      ensures GroupOf(inbounds, active, key) != [] && Keyed(GroupOf(inbounds, active, key), key)
    {
      GroupIsKeyed(inbounds, active, key);
    }
  }

  lemma GroupOfAppend(front: seq<Inbound>, active: seq<Account>, ib: Inbound, key: string)
    ensures GroupOf(front + [ib], active, key)
         == if ib.enabled && EngineKey(ib) == key then GroupOf(front, active, key) + [Prepared(ib, active)]
           else GroupOf(front, active, key)
  {
    assert (front + [ib])[..|front|] == front;
  }

  function WithMember(groups: Groups, key: string, ib: Inbound): Groups {
    groups[key := (if key in groups then groups[key] else []) + [ib]]
  }

  lemma GroupsAppend(front: seq<Inbound>, active: seq<Account>, ib: Inbound)
    ensures GroupsOf(front + [ib], active)
         == if ib.enabled then WithMember(GroupsOf(front, active), EngineKey(ib), Prepared(ib, active))
           else GroupsOf(front, active)
    ensures Keys(front + [ib]) == Keys(front) + if ib.enabled then {EngineKey(ib)} else {}
  {
    KeysAppend(front, ib);
    var after := if ib.enabled then WithMember(GroupsOf(front, active), EngineKey(ib), Prepared(ib, active))
      else GroupsOf(front, active);
    forall key ensures Get(GroupsOf(front + [ib], active), key) == Get(after, key) {
      GroupAppends(front, active, ib, key);
    }
    SameMap(GroupsOf(front + [ib], active), after);
  }

  lemma GroupAppends(front: seq<Inbound>, active: seq<Account>, ib: Inbound, key: string)
    ensures Get(GroupsOf(front + [ib], active), key)
         == if ib.enabled && EngineKey(ib) == key
           then Some(GetOr(GroupsOf(front, active), key, []) + [Prepared(ib, active)])
            else Get(GroupsOf(front, active), key)
  {
    KeysAppend(front, ib);
    GroupOfAppend(front, active, ib, key);
    GroupIsKeyed(front, active, key);
  }
}
