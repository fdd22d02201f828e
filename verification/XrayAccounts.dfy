/** Account handling of the Xray engine (node/internal/engine/xray.go): a cold restart renders every
    account into a new instance, a hot sync only edits the users that changed. */
module XrayAccounts {
  import opened Common
  import opened Configs

  /** The protocols that an Xray instance can serve. */
  predicate Supported(p: Protocol) {
    !p.Naiveproxy? && !p.Trojan? && !p.TrustTunnel?
  }

  /** These protocols do not look at accounts. */
  predicate Open(p: Protocol) {
    p.Tunnel? || p.TProxy?
  }

  /** A user as the running instance knows it. */
  datatype User =
    | VlessUser(id: string, flow: string, reverse: Option<string>)
    | HysteriaUser(auth: string)
    | PasswordUser(password: string)
    | Peer(key: string)

  type Users = map<string, User>
  type Server = map<string, Users>
  type Tokens = map<string, string>

  // ---------- cold restart ----------

  /** buildXrayReverseConfig: which account is the portal of which reverse tag, or None on an error. */
  function Portals(inbounds: seq<Inbound>): Option<map<string, string>> {
    if inbounds == [] then Some(map[]) else
      var ib := inbounds[|inbounds| - 1];
      match Portals(inbounds[..|inbounds| - 1])
      case None => None
      case Some(portals) =>
        if !ib.protocol.ReverseProxy? then Some(portals) else
          var tag := if Trim(ib.protocol.tag) != "" then Trim(ib.protocol.tag) else Trim(ib.name);
          var user := Trim(ib.protocol.portalUser);
          if tag == "" || user == "" || (user in portals && portals[user] != tag) then None
          else Some(portals[user := tag])
  }

  function OwnOrShared(token: string, password: string): string {
    if Trim(token) == "" then Trim(password) else Trim(token)
  }

  function ColdUser(p: Protocol, a: Account, portals: map<string, string>): User {
    match p
    case Vless(flow) => VlessUser(a.token, flow, Get(portals, Trim(a.id)))
    case Hysteria2(_) => HysteriaUser(Trim(a.token))
    case Wireguard => Peer(a.token)
    case Shadowsocks(password) => PasswordUser(OwnOrShared(a.token, password))
    case _ => PasswordUser(a.token)
  }

  function ColdUsers(p: Protocol, accounts: seq<Account>, portals: map<string, string>): Users {
    if accounts == [] then map[] else
      var a := accounts[|accounts| - 1];
      var front := ColdUsers(p, accounts[..|accounts| - 1], portals);
      if a.id == "" || Open(p) then front else front[a.id := ColdUser(p, a, portals)]
  }

  /** Portals are not inbounds of the instance. */
  predicate Emitted(ib: Inbound) {
    !ib.protocol.ReverseProxy?
  }

  /** An inbound without a name has no tag, and no request can reach its users. */
  predicate Tagged(ib: Inbound) {
    Emitted(ib) && ib.name != ""
  }

  /** The tag of the inbound through which the engine talks to its instance. */
  const API_TAG: string := "api-in"

  /** The user tables of a freshly started instance. */
  function Boot(inbounds: seq<Inbound>, portals: map<string, string>): Server {
    if inbounds == [] then map[] else
      var ib := inbounds[|inbounds| - 1];
      var front := Boot(inbounds[..|inbounds| - 1], portals);
      if Tagged(ib) then front[ib.name := ColdUsers(ib.protocol, ib.accounts, portals)] else front
  }

  predicate UniqueIds(accounts: seq<Account>) {
    forall i, j :: 0 <= i < j < |accounts| && accounts[i].id != "" ==> accounts[i].id != accounts[j].id
  }

  predicate UniqueTags(inbounds: seq<Inbound>) {
    forall i, j :: 0 <= i < j < |inbounds| && Tagged(inbounds[i]) && Tagged(inbounds[j]) ==>
      inbounds[i].name != inbounds[j].name
  }

  predicate PortalsServed(inbounds: seq<Inbound>, portals: map<string, string>) {
    forall u :: u in portals ==>
      exists ib, a :: ib in inbounds && ib.protocol.Vless? && a in ib.accounts && a.id != "" && Trim(a.id) == u
  }

  predicate TagsFree(inbounds: seq<Inbound>) {
    UniqueTags(inbounds) && forall ib :: ib in inbounds && Tagged(ib) ==> ib.name != API_TAG
  }

  /** What an instance needs in order to start, apart from conditions of its environment: the proxy
      library refuses duplicate tags, that of its own inbound included, and duplicate users of VLESS and
      Hysteria2. */
  predicate Bootable(inbounds: seq<Inbound>) {
    && inbounds != []
    && (forall ib :: ib in inbounds ==> Supported(ib.protocol))
    && Portals(inbounds).Some?
    && PortalsServed(inbounds, Portals(inbounds).value)
    && TagsFree(inbounds)
    && (forall ib :: ib in inbounds && Synced(ib) ==> UniqueIds(ib.accounts))
  }

  function Recorded(accounts: seq<Account>): Tokens {
    if accounts == [] then map[] else
      var a := accounts[|accounts| - 1];
      var front := Recorded(accounts[..|accounts| - 1]);
      if a.id == "" then front else front[a.id := a.token]
  }

  /** lastAccounts after a restart. */
  function RecordedAll(inbounds: seq<Inbound>): map<string, Tokens> {
    if inbounds == [] then map[] else
      var ib := inbounds[|inbounds| - 1];
      var front := RecordedAll(inbounds[..|inbounds| - 1]);
      if Trim(ib.name) == "" || Recorded(ib.accounts) == map[] then front
      else front[ib.name := Recorded(ib.accounts)]
  }

  /** normalizeInboundsForRestart. */
  function Stripped(inbounds: seq<Inbound>): seq<Inbound> {
    seq(|inbounds|, i requires 0 <= i < |inbounds| => inbounds[i].(accounts := []))
  }

  // ---------- hot sync ----------

  predicate Synced(ib: Inbound) {
    ib.protocol.Vless? || ib.protocol.Hysteria2?
  }

  function HotToken(p: Protocol, a: Account): string {
    if p.Hysteria2? && Trim(a.token) == "" then Trim(p.password) else Trim(a.token)
  }

  function Wanted(p: Protocol, accounts: seq<Account>): Tokens {
    if accounts == [] then map[] else
      var a := accounts[|accounts| - 1];
      var front := Wanted(p, accounts[..|accounts| - 1]);
      if a.id == "" then front else front[a.id := HotToken(p, a)]
  }

  /** The user that an add operation carries. */
  function Fresh(p: Protocol, token: string): User {
    if p.Hysteria2? then HysteriaUser(token) else VlessUser(token, if p.Vless? then p.flow else "", None)
  }

  datatype Operation = AddUser(tag: string, email: string, user: User) | RemoveUser(tag: string, email: string)

  /** AlterInbound on the server. Adding a user that exists, removing one that does not, and naming an
      unknown tag are errors, and the engine ignores them. */
  function Alter(server: Server, op: Operation): Server {
    if op.tag !in server then server
    else match op
      case AddUser(tag, email, user) =>
        if email in server[tag] then server else server[tag := server[tag][email := user]]
      case RemoveUser(tag, email) => server[tag := server[tag] - {email}]
  }

  predicate Unchanged(before: Tokens, after: Tokens, email: string) {
    email in before && email in after && before[email] == after[email]
  }

  /** What a sync does to the entry of one email. */
  function UserAfter(users: Users, before: Tokens, after: Tokens, p: Protocol, email: string): Option<User> {
    if Unchanged(before, after, email) then Get(users, email)
    else if email in after then
      if email !in before && email in users then Some(users[email]) else Some(Fresh(p, after[email]))
    else if email in before then None
    else Get(users, email)
  }

  function UsersAfter(users: Users, before: Tokens, after: Tokens, p: Protocol): Users {
    map e | e in users.Keys + after.Keys &&
      UserAfter(users, before, after, p, e).Some? :: UserAfter(users, before, after, p, e).value
  }

  function WithUsers(server: Server, tag: string, before: Tokens, after: Tokens, p: Protocol): Server {
    if tag in server then server[tag := UsersAfter(server[tag], before, after, p)] else server
  }

  function WithTokens(lastAccounts: map<string, Tokens>, tag: string, after: Tokens): map<string, Tokens> {
    if after == map[] then lastAccounts - {tag} else lastAccounts[tag := after]
  }

  // ---------- the engine ----------

  /** `instance` is whether e.instance is non-nil, `live` whether that instance is running. */
  datatype Engine = Engine(instance: bool, live: bool, server: Server, lastConfigs: seq<Inbound>,
                           lastSettings: Settings, lastAccounts: map<string, Tokens>)

  /** What the environment decides during one update: the tags at which dialling fails, and whether a
      bootable instance starts. */
  datatype Environment = Environment(noDial: set<string>, starts: bool)

  function SyncOne(e: Engine, ib: Inbound): Engine {
    var tag := Trim(ib.name);
    var before, after := GetOr(e.lastAccounts, tag, map[]), Wanted(ib.protocol, ib.accounts);
    e.(server := WithUsers(e.server, tag, before, after, ib.protocol),
      lastAccounts := WithTokens(e.lastAccounts, tag, after))
  }

  /** The inbounds one after the other, stopping where dialling fails. */
  function SyncEach(e: Engine, inbounds: seq<Inbound>, noDial: set<string>): (Engine, bool)
    decreases inbounds
  {
    if inbounds == [] then (e, true)
    else if Trim(inbounds[0].name) == "" || !Synced(inbounds[0]) then SyncEach(e, inbounds[1..], noDial)
    else if Trim(inbounds[0].name) in noDial then (e, false)
    else SyncEach(SyncOne(e, inbounds[0]), inbounds[1..], noDial)
  }

  function Tags(inbounds: seq<Inbound>): set<string> {
    set ib | ib in inbounds && Trim(ib.name) != "" :: Trim(ib.name)
  }

  function SyncAll(e: Engine, inbounds: seq<Inbound>, noDial: set<string>): (Engine, bool) {
    var (e', ok) := SyncEach(e, inbounds, noDial);
    if !ok then (e', false)
    else (e'.(lastAccounts := map t | t in e'.lastAccounts && t in Tags(inbounds) :: e'.lastAccounts[t]), true)
  }

  predicate NeedsRestart(e: Engine, inbounds: seq<Inbound>, settings: Settings) {
    (exists ib :: ib in inbounds && ib.protocol.Wireguard?) || e.lastConfigs == [] ||
    e.lastConfigs != Stripped(inbounds) || e.lastSettings != settings
  }

  function Restarted(e: Engine, inbounds: seq<Inbound>, settings: Settings, starts: bool): (Engine, bool) {
    if inbounds == [] then (e, false)
    else if !starts || !Bootable(inbounds) then (e.(live := false, server := map[]), false)
    else (Engine(true, true, Boot(inbounds, Portals(inbounds).value), Stripped(inbounds), settings,
      RecordedAll(inbounds)), true)
  }

  predicate Hot(e: Engine, inbounds: seq<Inbound>, settings: Settings) {
    e.instance && !NeedsRestart(e, inbounds, settings)
  }

  function Update(e: Engine, inbounds: seq<Inbound>, settings: Settings, env: Environment): (Engine, bool) {
    if Hot(e, inbounds, settings) then
      var (e', ok) := SyncAll(e, inbounds, env.noDial);
      (if ok then e'.(lastConfigs := Stripped(inbounds)) else e', ok)
    else
      Restarted(e, inbounds, settings, env.starts)
  }

  function Stopped(e: Engine): Engine {
    e.(instance := false, live := false, server := map[])
  }

  const NEW_ENGINE: Engine := Engine(false, false, map[], [], Settings([], "", ""), map[])

  // ---------- the cache mirrors the server ----------

  /** The inbound's name is trimmed and not empty, and no other name is the same after trimming. */
  ghost predicate Owned(inbounds: seq<Inbound>, i: nat) {
    && i < |inbounds| && inbounds[i].name != "" && Trim(inbounds[i].name) == inbounds[i].name
    && forall j :: 0 <= j < |inbounds| && j != i ==> Trim(inbounds[j].name) != inbounds[i].name
  }

  /** Names are trimmed, non-empty and pairwise distinct. */
  ghost predicate CleanNames(inbounds: seq<Inbound>) {
    forall i :: 0 <= i < |inbounds| ==> Owned(inbounds, i)
  }

  /** A cached token describes a running user. */
  predicate Describes(p: Protocol, portals: map<string, string>, email: string, token: string, user: User) {
    match p
    case Vless(flow) => user.VlessUser? && user.id == token && user.flow == flow
                        && (user.reverse.None? || user.reverse == Get(portals, Trim(email)))
    case Hysteria2(_) => user == HysteriaUser(Trim(token))
    case _ => user == ColdUser(p, Account(email, token, 0), portals)
  }

  ghost predicate MirrorsTag(p: Protocol, portals: map<string, string>, tokens: Tokens, users: Users) {
    if Open(p) then users == map[] else
      tokens.Keys == users.Keys && forall email :: email in tokens ==>
        Describes(p, portals, email, tokens[email], users[email])
  }

  ghost predicate MirrorsAt(e: Engine, portals: map<string, string>, i: nat)
    requires i < |e.lastConfigs|
  {
    var ib := e.lastConfigs[i];
    ib.name in e.server && MirrorsTag(ib.protocol, portals, GetOr(e.lastAccounts, ib.name, map[]), e.server[ib.name])
  }

  /** The tables are those of the tagged inbounds, and for every inbound of the running instance that has its name
      for itself the cache and the server know the same users with the same credentials. */
  ghost predicate Mirrors(e: Engine, portals: map<string, string>) {
    && e.server.Keys == TaggedNames(e.lastConfigs)
    && forall i :: 0 <= i < |e.lastConfigs| && Tagged(e.lastConfigs[i]) && Owned(e.lastConfigs, i) ==>
         MirrorsAt(e, portals, i)
  }

  /** The invariant of every reachable engine. It speaks about live instances only: after a failed
      restart the cache describes an instance that no longer runs. */
  ghost predicate Coherent(e: Engine) {
    && (e.live ==> e.instance)
    && (!e.live ==> e.server == map[])
    && (e.live ==> Portals(e.lastConfigs).Some? && Mirrors(e, Portals(e.lastConfigs).value))
  }

  lemma {:induction false} PortalsOfStripped(inbounds: seq<Inbound>)
    ensures Portals(Stripped(inbounds)) == Portals(inbounds)
  {
    if inbounds != [] {
      PortalsOfStripped(inbounds[..|inbounds| - 1]);
      assert Stripped(inbounds)[..|inbounds| - 1] == Stripped(inbounds[..|inbounds| - 1]);
    }
  }

  lemma {:induction false} ColdUsersMirrored(p: Protocol, accounts: seq<Account>, portals: map<string, string>)
    ensures MirrorsTag(p, portals, Recorded(accounts), ColdUsers(p, accounts, portals))
  {
    if accounts != [] {
      ColdUsersMirrored(p, accounts[..|accounts| - 1], portals);
    }
  }

  function TaggedNames(inbounds: seq<Inbound>): set<string> {
    set ib | ib in inbounds && Tagged(ib) :: ib.name
  }

  lemma TaggedNamesAppend(front: seq<Inbound>, last: Inbound)
    ensures TaggedNames(front + [last]) == TaggedNames(front) + if Tagged(last) then {last.name} else {}
  {
    assert forall ib :: ib in front + [last] <==> ib in front || ib == last;
  }

  lemma {:induction false} BootNames(inbounds: seq<Inbound>, portals: map<string, string>)
    ensures Boot(inbounds, portals).Keys == TaggedNames(inbounds)
  {
    if inbounds != [] {
      var front, last := inbounds[..|inbounds| - 1], inbounds[|inbounds| - 1];
      assert inbounds == front + [last];
      BootNames(front, portals);
      TaggedNamesAppend(front, last);
    }
  }

  lemma {:induction false} BootLookup(inbounds: seq<Inbound>, portals: map<string, string>, ib: Inbound)
    requires UniqueTags(inbounds) && ib in inbounds && Tagged(ib)
    ensures Get(Boot(inbounds, portals), ib.name) == Some(ColdUsers(ib.protocol, ib.accounts, portals))
  {
    var front, last := inbounds[..|inbounds| - 1], inbounds[|inbounds| - 1];
    if ib != last {
      var i :| 0 <= i < |inbounds| && inbounds[i] == ib;
      assert front[i] == ib;
      assert Tagged(last) ==> inbounds[i].name != inbounds[|inbounds| - 1].name;
      BootLookup(front, portals, ib);
    }
  }

  // ---------- what a started instance serves, from the fields of its inbounds ----------

  /** A reverse tag: that of the portal, or else the name of its inbound. */
  ghost function ReverseTag(r: Inbound): string
    requires r.protocol.ReverseProxy?
  {
    if Trim(r.protocol.tag) == "" then Trim(r.name) else Trim(r.protocol.tag)
  }

  ghost predicate PortalFor(r: Inbound, id: string) {
    r.protocol.ReverseProxy? && Trim(r.protocol.portalUser) == Trim(id)
  }

  /** Every portal has a tag and a user, and no user has two tags. */
  ghost predicate PortalsConsistent(inbounds: seq<Inbound>) {
    && (forall r :: r in inbounds && r.protocol.ReverseProxy? ==>
        ReverseTag(r) != "" && Trim(r.protocol.portalUser) != "")
    && (forall r, s :: r in inbounds && s in inbounds && r.protocol.ReverseProxy? && s.protocol.ReverseProxy? ==>
         Trim(r.protocol.portalUser) == Trim(s.protocol.portalUser) ==> ReverseTag(r) == ReverseTag(s))
  }

  ghost predicate PortalMap(inbounds: seq<Inbound>, portals: map<string, string>) {
    && (forall r :: r in inbounds && r.protocol.ReverseProxy? ==>
         Trim(r.protocol.portalUser) in portals && portals[Trim(r.protocol.portalUser)] == ReverseTag(r))
    && (forall u :: u in portals ==>
         exists r :: r in inbounds && r.protocol.ReverseProxy? && Trim(r.protocol.portalUser) == u)
  }

  /** One more portal. */
  lemma PortalStep(front: seq<Inbound>, r: Inbound, portals: map<string, string>)
    requires r.protocol.ReverseProxy? && PortalsConsistent(front) && PortalMap(front, portals)
    ensures var tag, user := ReverseTag(r), Trim(r.protocol.portalUser);
            && (PortalsConsistent(front + [r]) <==>
                 tag != "" && user != "" && (user in portals ==> portals[user] == tag))
            && (PortalsConsistent(front + [r]) ==> PortalMap(front + [r], portals[user := tag]))
  {
    hide Trim, ReverseTag;
    var inbounds, tag, user := front + [r], ReverseTag(r), Trim(r.protocol.portalUser);
    assert r in inbounds && forall x :: x in inbounds <==> x in front || x == r;
    if user in portals {
      var s :| s in front && s.protocol.ReverseProxy? && Trim(s.protocol.portalUser) == user;
      assert portals[user] == ReverseTag(s);
      assert s in inbounds;
    }
    if tag != "" && user != "" && (user in portals ==> portals[user] == tag) {
      forall s | s in front && s.protocol.ReverseProxy? && Trim(s.protocol.portalUser) == user
        ensures ReverseTag(s) == tag
      {
        assert portals[user] == ReverseTag(s);
      }
      assert PortalsConsistent(inbounds);
    }
    if PortalsConsistent(inbounds) {
      PortalMapStep(front, r, portals);
    }
  }

  lemma PortalMapStep(front: seq<Inbound>, r: Inbound, portals: map<string, string>)
    requires r.protocol.ReverseProxy? && PortalsConsistent(front + [r]) && PortalMap(front, portals)
    ensures PortalMap(front + [r], portals[Trim(r.protocol.portalUser) := ReverseTag(r)])
  {
    hide Trim, ReverseTag;
    var inbounds := front + [r];
    assert r in inbounds && forall x :: x in inbounds <==> x in front || x == r;
  }

  lemma OtherInbound(front: seq<Inbound>, ib: Inbound)
    ensures PortalsConsistent(front + [ib]) ==> PortalsConsistent(front)
    ensures !ib.protocol.ReverseProxy? && PortalsConsistent(front) ==> PortalsConsistent(front + [ib])
    ensures forall portals :: !ib.protocol.ReverseProxy? && PortalMap(front, portals) ==>
              PortalMap(front + [ib], portals)
  {
    hide Trim, ReverseTag;
    assert forall x :: x in front + [ib] <==> x in front || x == ib;
  }

  lemma {:induction false} PortalsExactly(inbounds: seq<Inbound>)
    ensures Portals(inbounds).Some? <==> PortalsConsistent(inbounds)
    ensures Portals(inbounds).Some? ==> PortalMap(inbounds, Portals(inbounds).value)
  {
    hide Trim, PortalsConsistent, PortalMap;
    if inbounds == [] {
      NoPortals();
    } else {
      var front, last := inbounds[..|inbounds| - 1], inbounds[|inbounds| - 1];
      assert inbounds == front + [last];
      PortalsExactly(front);
      OtherInbound(front, last);
      if Portals(front).Some? && last.protocol.ReverseProxy? {
        PortalStep(front, last, Portals(front).value);
      }
    }
  }

  lemma NoPortals()
    ensures PortalsConsistent([]) && PortalMap([], map[])
  {
  }

  /** What the started instance knows of an account. */
  ghost predicate KnownAs(ib: Inbound, a: Account, inbounds: seq<Inbound>, user: User) {
    match ib.protocol
    case Vless(flow) =>
      && user.VlessUser? && user.id == a.token && user.flow == flow
      && (forall r :: r in inbounds && PortalFor(r, a.id) ==> user.reverse == Some(ReverseTag(r)))
      && ((forall r :: r in inbounds ==> !PortalFor(r, a.id)) ==> user.reverse == None)
    case Hysteria2(_) => user == HysteriaUser(Trim(a.token))
    case Shadowsocks(password) => user == PasswordUser(if Trim(a.token) == "" then Trim(password) else Trim(a.token))
    case Wireguard => user == Peer(a.token)
    case _ => user == PasswordUser(a.token)
  }

  /** No later account has the same id. */
  predicate LastOfItsId(accounts: seq<Account>, j: nat)
    requires j < |accounts|
  {
    forall k :: j < k < |accounts| ==> accounts[k].id != accounts[j].id
  }

  /** A table holds the accounts that have an id, each as it is known, and nobody else; tunnels and transparent proxies
      have no users. */
  ghost predicate ServesAccounts(users: Users, ib: Inbound, inbounds: seq<Inbound>) {
    if ib.protocol.Tunnel? || ib.protocol.TProxy? then users == map[] else
      && (forall id :: id in users <==> id != "" && exists a :: a in ib.accounts && a.id == id)
      && (forall j :: 0 <= j < |ib.accounts| && ib.accounts[j].id in users && LastOfItsId(ib.accounts, j) ==>
           KnownAs(ib, ib.accounts[j], inbounds, users[ib.accounts[j].id]))
  }

  /** There is a table for every inbound with a name that is no portal, with its accounts, and no other. */
  ghost predicate ServesInbounds(server: Server, inbounds: seq<Inbound>) {
    && (forall tag :: tag in server ==>
         tag != "" && exists ib :: ib in inbounds && !ib.protocol.ReverseProxy? && ib.name == tag)
    && (forall ib :: ib in inbounds && !ib.protocol.ReverseProxy? && ib.name != "" ==>
         ib.name in server && ServesAccounts(server[ib.name], ib, inbounds))
  }

  lemma ColdKnown(ib: Inbound, a: Account, inbounds: seq<Inbound>, portals: map<string, string>)
    requires PortalMap(inbounds, portals)
    ensures KnownAs(ib, a, inbounds, ColdUser(ib.protocol, a, portals))
  {
    hide Trim, ReverseTag;
    if ib.protocol.Vless? && Trim(a.id) in portals {
      var r :| r in inbounds && r.protocol.ReverseProxy? && Trim(r.protocol.portalUser) == Trim(a.id);
      assert PortalFor(r, a.id);
    }
  }

  lemma {:induction false} ColdIds(p: Protocol, accounts: seq<Account>, portals: map<string, string>)
    requires !p.Tunnel? && !p.TProxy?
    ensures forall id :: id in ColdUsers(p, accounts, portals) <==> id != "" && exists a :: a in accounts && a.id == id
  {
    hide ColdUser;
    if accounts != [] {
      var front, last := accounts[..|accounts| - 1], accounts[|accounts| - 1];
      assert last in accounts && forall a :: a in accounts <==> a in front || a == last;
      ColdIds(p, front, portals);
    }
  }

  lemma {:induction false} ColdUsersKnown(p: Protocol, accounts: seq<Account>, portals: map<string, string>, j: nat)
    requires !p.Tunnel? && !p.TProxy?
    requires j < |accounts| && accounts[j].id != "" && LastOfItsId(accounts, j)
    ensures Get(ColdUsers(p, accounts, portals), accounts[j].id) == Some(ColdUser(p, accounts[j], portals))
  {
    hide ColdUser;
    var front, last := accounts[..|accounts| - 1], accounts[|accounts| - 1];
    if j < |front| {
      assert last.id != accounts[j].id;
      assert forall k :: 0 <= k < |front| ==> front[k] == accounts[k];
      ColdUsersKnown(p, front, portals, j);
    }
  }

  lemma ColdTableServes(ib: Inbound, inbounds: seq<Inbound>, portals: map<string, string>)
    requires PortalMap(inbounds, portals)
    ensures ServesAccounts(ColdUsers(ib.protocol, ib.accounts, portals), ib, inbounds)
  {
    hide PortalMap, KnownAs, ColdUser;
    if ib.protocol.Tunnel? || ib.protocol.TProxy? {
      NoColdUsers(ib.protocol, ib.accounts, portals);
    } else {
      var users := ColdUsers(ib.protocol, ib.accounts, portals);
      ColdIds(ib.protocol, ib.accounts, portals);
      forall j | 0 <= j < |ib.accounts| && ib.accounts[j].id in users && LastOfItsId(ib.accounts, j)
        ensures KnownAs(ib, ib.accounts[j], inbounds, users[ib.accounts[j].id])
      {
        ColdUsersKnown(ib.protocol, ib.accounts, portals, j);
        ColdKnown(ib, ib.accounts[j], inbounds, portals);
      }
    }
  }

  lemma {:induction false} NoColdUsers(p: Protocol, accounts: seq<Account>, portals: map<string, string>)
    requires p.Tunnel? || p.TProxy?
    ensures ColdUsers(p, accounts, portals) == map[]
  {
    if accounts != [] {
      NoColdUsers(p, accounts[..|accounts| - 1], portals);
    }
  }

  /** A restart starts the instance if nothing in its environment prevents it and there are inbounds, all of supported
      protocols; every portal has a tag, a user with one tag, and an account of that user on a VLESS inbound; no two
      inbounds share a name, nor does one have that of the engine's own; and no VLESS or Hysteria2 inbound has two
      accounts with one id. Otherwise it fails. */
  lemma RestartsExactly(e: Engine, inbounds: seq<Inbound>, settings: Settings, starts: bool)
    ensures Restarted(e, inbounds, settings, starts).1 <==>
            && starts && |inbounds| > 0
            && (forall ib :: ib in inbounds ==>
                 !ib.protocol.Naiveproxy? && !ib.protocol.Trojan? && !ib.protocol.TrustTunnel?)
            && PortalsConsistent(inbounds)
            && (forall r :: r in inbounds && r.protocol.ReverseProxy? ==>
                 exists ib, a :: ib in inbounds && ib.protocol.Vless? && a in ib.accounts && a.id != "" &&
                                 Trim(a.id) == Trim(r.protocol.portalUser))
            && (forall i, j :: 0 <= i < j < |inbounds| && inbounds[i].name == inbounds[j].name != "" ==>
                 inbounds[i].protocol.ReverseProxy? || inbounds[j].protocol.ReverseProxy?)
            && (forall ib :: ib in inbounds && ib.name == "api-in" ==> ib.protocol.ReverseProxy?)
            && (forall ib :: ib in inbounds && (ib.protocol.Vless? || ib.protocol.Hysteria2?) ==>
                 forall i, j :: 0 <= i < j < |ib.accounts| && ib.accounts[i].id != "" ==>
                   ib.accounts[i].id != ib.accounts[j].id)
  {
    hide Portals, PortalsConsistent, Boot, Stripped, RecordedAll, Trim;
    PortalsExactly(inbounds);
    if Portals(inbounds).Some? {
      var portals := Portals(inbounds).value;
      if PortalsServed(inbounds, portals) {
        forall r | r in inbounds && r.protocol.ReverseProxy?
          ensures exists ib, a :: ib in inbounds && ib.protocol.Vless? && a in ib.accounts && a.id != "" &&
                                  Trim(a.id) == Trim(r.protocol.portalUser)
        {
          assert Trim(r.protocol.portalUser) in portals;
        }
      }
    }
  }

  /** After a successful restart the instance serves the inbounds as they were given. */
  lemma RestartServes(e: Engine, inbounds: seq<Inbound>, settings: Settings, starts: bool)
    requires Restarted(e, inbounds, settings, starts).1
    ensures ServesInbounds(Restarted(e, inbounds, settings, starts).0.server, inbounds)
  {
    hide ServesAccounts, PortalMap, ColdUsers, Trim;
    var portals := Portals(inbounds).value;
    PortalsExactly(inbounds);
    BootNames(inbounds, portals);
    forall ib | ib in inbounds && !ib.protocol.ReverseProxy? && ib.name != ""
      ensures ib.name in Boot(inbounds, portals) && ServesAccounts(Boot(inbounds, portals)[ib.name], ib, inbounds)
    {
      BootLookup(inbounds, portals, ib);
      ColdTableServes(ib, inbounds, portals);
    }
  }

  ghost predicate HasIds(ib: Inbound) {
    exists a :: a in ib.accounts && a.id != ""
  }

  lemma {:induction false} RecordedIds(accounts: seq<Account>)
    ensures forall id :: id in Recorded(accounts) <==> id != "" && exists a :: a in accounts && a.id == id
  {
    if accounts != [] {
      var front, last := accounts[..|accounts| - 1], accounts[|accounts| - 1];
      assert last in accounts && forall a :: a in accounts <==> a in front || a == last;
      RecordedIds(front);
    }
  }

  lemma {:induction false} RecordedToken(accounts: seq<Account>, j: nat)
    requires j < |accounts| && accounts[j].id != "" && LastOfItsId(accounts, j)
    ensures Get(Recorded(accounts), accounts[j].id) == Some(accounts[j].token)
  {
    var front, last := accounts[..|accounts| - 1], accounts[|accounts| - 1];
    if j < |front| {
      assert last.id != accounts[j].id;
      assert forall k :: 0 <= k < |front| ==> front[k] == accounts[k];
      RecordedToken(front, j);
    }
  }

  lemma RecordedSome(ib: Inbound)
    ensures Recorded(ib.accounts) != map[] <==> HasIds(ib)
  {
    RecordedIds(ib.accounts);
    if HasIds(ib) {
      var a :| a in ib.accounts && a.id != "";
      assert a.id in Recorded(ib.accounts);
    }
    if Recorded(ib.accounts) != map[] {
      var id := Pick(Recorded(ib.accounts).Keys);
    }
  }

  lemma {:induction false} RecordedAt(inbounds: seq<Inbound>, i: nat)
    requires i < |inbounds| && forall j :: 0 <= j < |inbounds| && j != i ==> inbounds[j].name != inbounds[i].name
    ensures var ib := inbounds[i];
            Get(RecordedAll(inbounds), ib.name) ==
              if Trim(ib.name) != "" && HasIds(ib) then Some(Recorded(ib.accounts)) else None
  {
    hide Recorded, HasIds, Trim;
    var front, last := inbounds[..|inbounds| - 1], inbounds[|inbounds| - 1];
    assert forall j :: 0 <= j < |front| ==> inbounds[j] == front[j];
    RecordedSome(last);
    if i < |front| {
      assert last.name != inbounds[i].name;
      RecordedAt(front, i);
    } else {
      RecordedNames(front, last.name);
    }
  }

  /** What a restart remembers of an inbound whose name no other has: unless the name is blank or no account has an id,
      the token of the last account of each id. */
  lemma RestartRemembers(e: Engine, inbounds: seq<Inbound>, settings: Settings, starts: bool, i: nat)
    requires Restarted(e, inbounds, settings, starts).1 && i < |inbounds|
    requires forall j :: 0 <= j < |inbounds| && j != i ==> inbounds[j].name != inbounds[i].name
    ensures var ib, cache := inbounds[i], Restarted(e, inbounds, settings, starts).0.lastAccounts;
            && (ib.name in cache <==> Trim(ib.name) != "" && HasIds(ib))
            && (ib.name in cache ==>
                 && (forall id :: id in cache[ib.name] <==> id != "" && exists a :: a in ib.accounts && a.id == id)
                 && forall k :: 0 <= k < |ib.accounts| && ib.accounts[k].id != "" && LastOfItsId(ib.accounts, k) ==>
                      Get(cache[ib.name], ib.accounts[k].id) == Some(ib.accounts[k].token))
  {
    hide Recorded, RecordedAll, HasIds, Trim, Bootable, LastOfItsId;
    var ib := inbounds[i];
    RecordedAt(inbounds, i);
    RecordedIds(ib.accounts);
    forall k | 0 <= k < |ib.accounts| && ib.accounts[k].id != "" && LastOfItsId(ib.accounts, k)
      ensures Get(Recorded(ib.accounts), ib.accounts[k].id) == Some(ib.accounts[k].token)
    {
      RecordedToken(ib.accounts, k);
    }
  }

  lemma {:induction false} RecordedNames(inbounds: seq<Inbound>, tag: string)
    requires forall ib :: ib in inbounds ==> ib.name != tag
    ensures tag !in RecordedAll(inbounds)
  {
    if inbounds != [] {
      RecordedNames(inbounds[..|inbounds| - 1], tag);
    }
  }

  lemma OwnedFront(inbounds: seq<Inbound>, i: nat)
    requires Owned(inbounds, i) && i < |inbounds| - 1
    ensures Owned(inbounds[..|inbounds| - 1], i) && inbounds[|inbounds| - 1].name != inbounds[i].name
  {
    var front := inbounds[..|inbounds| - 1];
    assert forall j :: 0 <= j < |front| ==> front[j] == inbounds[j];
  }

  lemma OwnedLast(inbounds: seq<Inbound>)
    requires inbounds != [] && Owned(inbounds, |inbounds| - 1)
    ensures forall ib :: ib in inbounds[..|inbounds| - 1] ==> ib.name != inbounds[|inbounds| - 1].name
  {
    var front := inbounds[..|inbounds| - 1];
    forall ib | ib in front ensures ib.name != inbounds[|inbounds| - 1].name {
      var j :| 0 <= j < |front| && front[j] == ib;
      assert Trim(inbounds[j].name) != inbounds[|inbounds| - 1].name;
    }
  }

  lemma {:induction false} RecordedLookup(inbounds: seq<Inbound>, i: nat)
    requires Owned(inbounds, i)
    ensures GetOr(RecordedAll(inbounds), inbounds[i].name, map[]) == Recorded(inbounds[i].accounts)
  {
    hide Recorded, Owned;
    OwnedName(inbounds, i);
    var front, last := inbounds[..|inbounds| - 1], inbounds[|inbounds| - 1];
    if i < |front| {
      OwnedFront(inbounds, i);
      RecordedLookup(front, i);
    } else {
      OwnedLast(inbounds);
      RecordedNames(front, last.name);
    }
  }

  lemma OwnedName(inbounds: seq<Inbound>, i: nat)
    requires Owned(inbounds, i)
    ensures i < |inbounds| && inbounds[i].name != "" && Trim(inbounds[i].name) == inbounds[i].name
  {
  }

  lemma StrippedElements(inbounds: seq<Inbound>)
    ensures forall ib :: ib in inbounds ==> ib.(accounts := []) in Stripped(inbounds)
    ensures TaggedNames(Stripped(inbounds)) == TaggedNames(inbounds)
  {
    var t := Stripped(inbounds);
    forall ib | ib in inbounds ensures ib.(accounts := []) in t {
      var i :| 0 <= i < |inbounds| && inbounds[i] == ib;
      assert t[i] == ib.(accounts := []);
    }
    forall s | s in t ensures exists ib :: ib in inbounds && s == ib.(accounts := []) {
      var i :| 0 <= i < |t| && t[i] == s;
      assert inbounds[i] in inbounds && s == inbounds[i].(accounts := []);
    }
    forall n | n in TaggedNames(inbounds) ensures n in TaggedNames(t) {
      var ib :| ib in inbounds && Tagged(ib) && ib.name == n;
      assert ib.(accounts := []) in t && Tagged(ib.(accounts := [])) && ib.(accounts := []).name == n;
    }
  }

  lemma StrippedOwned(inbounds: seq<Inbound>, i: nat)
    ensures Owned(Stripped(inbounds), i) <==> Owned(inbounds, i)
  {
    var t := Stripped(inbounds);
    assert forall j :: 0 <= j < |inbounds| ==> t[j].name == inbounds[j].name;
  }

  /** A successful restart leaves a coherent engine. */
  lemma RestartCoherent(e: Engine, inbounds: seq<Inbound>, settings: Settings, starts: bool)
    requires Coherent(e)
    ensures Coherent(Restarted(e, inbounds, settings, starts).0)
  {
    hide Owned, MirrorsAt;
    if starts && Bootable(inbounds) {
      var e' := Restarted(e, inbounds, settings, starts).0;
      var portals := Portals(inbounds).value;
      PortalsOfStripped(inbounds);
      StrippedElements(inbounds);
      BootNames(inbounds, portals);
      forall i | 0 <= i < |e'.lastConfigs| && Tagged(e'.lastConfigs[i]) && Owned(e'.lastConfigs, i)
        ensures MirrorsAt(e', portals, i)
      {
        RestartMirrors(e', inbounds, portals, i);
      }
    }
  }

  lemma RestartMirrors(e: Engine, inbounds: seq<Inbound>, portals: map<string, string>, i: nat)
    requires UniqueTags(inbounds) && i < |inbounds| && Tagged(inbounds[i]) && Owned(Stripped(inbounds), i)
    requires e.lastConfigs == Stripped(inbounds) && e.server == Boot(inbounds, portals) &&
             e.lastAccounts == RecordedAll(inbounds)
    ensures MirrorsAt(e, portals, i)
  {
    hide Owned, UniqueTags, MirrorsTag;
    StrippedOwned(inbounds, i);
    RecordedLookup(inbounds, i);
    BootLookup(inbounds, portals, inbounds[i]);
    ColdUsersMirrored(inbounds[i].protocol, inbounds[i].accounts, portals);
  }

  lemma {:induction false} WantedTrimmed(p: Protocol, accounts: seq<Account>)
    ensures forall email :: email in Wanted(p, accounts) ==>
              Trim(Wanted(p, accounts)[email]) == Wanted(p, accounts)[email]
  {
    if accounts != [] {
      WantedTrimmed(p, accounts[..|accounts| - 1]);
      var a := accounts[|accounts| - 1];
      TrimIdempotent(a.token);
      if p.Hysteria2? {
        TrimIdempotent(p.password);
      }
    }
  }

  lemma UsersAfterAt(users: Users, before: Tokens, after: Tokens, p: Protocol, e: string)
    ensures Get(UsersAfter(users, before, after, p), e) == UserAfter(users, before, after, p, e)
  {
  }

  /** Against a mirrored table a sync leaves exactly the wanted users, each either kept or fresh. */
  lemma UsersAfterSync(p: Protocol, portals: map<string, string>, users: Users, before: Tokens, after: Tokens)
    requires !Open(p) && MirrorsTag(p, portals, before, users)
    ensures UsersAfter(users, before, after, p).Keys == after.Keys
    ensures forall email :: email in after ==>
              (UsersAfter(users, before, after, p)[email] == if Unchanged(before, after, email) then users[email]
                else Fresh(p, after[email]))
  {
    forall email
      ensures email in UsersAfter(users, before, after, p) <==> email in after
      ensures email in after ==> UsersAfter(users, before, after, p)[email]
                                 == if Unchanged(before, after, email) then users[email] else Fresh(p, after[email])
    {
      UsersAfterAt(users, before, after, p, email);
      UserAfterSync(users, before, after, p, email);
    }
  }

  lemma UserAfterSync(users: Users, before: Tokens, after: Tokens, p: Protocol, email: string)
    requires before.Keys == users.Keys
    ensures UserAfter(users, before, after, p, email)
            == if email !in after then None
              else Some(if Unchanged(before, after, email) then users[email] else Fresh(p, after[email]))
  {
  }

  lemma SyncedTagMirrors(p: Protocol, portals: map<string, string>, users: Users, before: Tokens,
      accounts: seq<Account>)
    requires (p.Vless? || p.Hysteria2?) && MirrorsTag(p, portals, before, users)
    ensures MirrorsTag(p, portals, Wanted(p, accounts), UsersAfter(users, before, Wanted(p, accounts), p))
  {
    UsersAfterSync(p, portals, users, before, Wanted(p, accounts));
    WantedTrimmed(p, accounts);
  }

  /** A sync of one inbound touches the table and the cache entry of its tag only. */
  lemma SyncOneAt(e: Engine, ib: Inbound, tag: string)
    ensures var e', name := SyncOne(e, ib), Trim(ib.name);
            var before, after := GetOr(e.lastAccounts, name, map[]), Wanted(ib.protocol, ib.accounts);
            if tag == name then
              && GetOr(e'.lastAccounts, tag, map[]) == after
              && (tag in e'.server <==> tag in e.server)
              && (tag in e.server ==> e'.server[tag] == UsersAfter(e.server[tag], before, after, ib.protocol))
            else Get(e'.lastAccounts, tag) == Get(e.lastAccounts, tag) && Get(e'.server, tag) == Get(e.server, tag)
  {
  }

  lemma {:induction false} WantedIds(p: Protocol, accounts: seq<Account>)
    ensures forall id :: id in Wanted(p, accounts) <==> id != "" && exists a :: a in accounts && a.id == id
  {
    hide HotToken;
    if accounts != [] {
      var front, last := accounts[..|accounts| - 1], accounts[|accounts| - 1];
      assert last in accounts && forall a :: a in accounts <==> a in front || a == last;
      WantedIds(p, front);
    }
  }

  lemma {:induction false} WantedToken(p: Protocol, accounts: seq<Account>, j: nat)
    requires j < |accounts| && accounts[j].id != "" && LastOfItsId(accounts, j)
    ensures Get(Wanted(p, accounts), accounts[j].id) == Some(HotToken(p, accounts[j]))
  {
    hide HotToken;
    var front, last := accounts[..|accounts| - 1], accounts[|accounts| - 1];
    if j < |front| {
      assert last.id != accounts[j].id;
      assert forall k :: 0 <= k < |front| ==> front[k] == accounts[k];
      WantedToken(p, front, j);
    }
  }

  /** What a sync remembers under the trimmed name of an inbound: nothing if no account has an id, and otherwise for
      each id the trimmed token of its last account, or the trimmed password of a Hysteria2 inbound where that is
      empty. */
  lemma SyncRemembers(e: Engine, ib: Inbound)
    ensures var tag, cache := Trim(ib.name), SyncOne(e, ib).lastAccounts;
            && (tag in cache <==> HasIds(ib))
            && (tag in cache ==>
                 && (forall id :: id in cache[tag] <==> id != "" && exists a :: a in ib.accounts && a.id == id)
                 && forall k :: 0 <= k < |ib.accounts| && ib.accounts[k].id != "" && LastOfItsId(ib.accounts, k) ==>
                      Get(cache[tag], ib.accounts[k].id) ==
                        Some(if ib.protocol.Hysteria2? && Trim(ib.accounts[k].token) == ""
                             then Trim(ib.protocol.password) else Trim(ib.accounts[k].token)))
            && (forall other :: other != tag ==> Get(cache, other) == Get(e.lastAccounts, other))
  {
    hide Wanted, Trim, LastOfItsId, WithUsers;
    var wanted := Wanted(ib.protocol, ib.accounts);
    WantedIds(ib.protocol, ib.accounts);
    if a :| a in ib.accounts && a.id != "" {
      assert a.id in wanted;
    }
    if wanted != map[] {
      var id := Pick(wanted.Keys);
    }
    forall k | 0 <= k < |ib.accounts| && ib.accounts[k].id != "" && LastOfItsId(ib.accounts, k)
      ensures Get(wanted, ib.accounts[k].id) == Some(HotToken(ib.protocol, ib.accounts[k]))
    {
      WantedToken(ib.protocol, ib.accounts, k);
    }
  }

  lemma SyncOneKeeps(e: Engine, ib: Inbound)
    ensures SyncOne(e, ib).server.Keys == e.server.Keys && SyncOne(e, ib).lastConfigs == e.lastConfigs
  {
  }

  /** Syncing one inbound of the running configuration keeps the mirror for all of them. */
  lemma SyncOneMirrors(e: Engine, ib: Inbound, portals: map<string, string>)
    requires Mirrors(e, portals) && Synced(ib) && ib.(accounts := []) in e.lastConfigs
    ensures Mirrors(SyncOne(e, ib), portals)
  {
    hide Owned, MirrorsAt;
    var e' := SyncOne(e, ib);
    SyncOneKeeps(e, ib);
    var k :| 0 <= k < |e.lastConfigs| && e.lastConfigs[k] == ib.(accounts := []);
    forall i | 0 <= i < |e'.lastConfigs| && Tagged(e'.lastConfigs[i]) && Owned(e'.lastConfigs, i)
      ensures MirrorsAt(e', portals, i)
    {
      SyncOneMirrorsAt(e, ib, portals, k, i);
    }
  }

  lemma SyncOneMirrorsAt(e: Engine, ib: Inbound, portals: map<string, string>, k: nat, i: nat)
    requires k < |e.lastConfigs| && e.lastConfigs[k] == ib.(accounts := []) && Synced(ib)
    requires Owned(e.lastConfigs, i) && MirrorsAt(e, portals, i)
    ensures MirrorsAt(SyncOne(e, ib), portals, i)
  {
    hide MirrorsTag, UsersAfter, Wanted;
    var t := e.lastConfigs[i];
    SyncOneAt(e, ib, t.name);
    if t.name == Trim(ib.name) {
      assert k == i;
      SyncedTagMirrors(ib.protocol, portals, e.server[t.name], GetOr(e.lastAccounts, t.name, map[]), ib.accounts);
    }
  }

  ghost predicate Within(inbounds: seq<Inbound>, configs: seq<Inbound>) {
    forall ib :: ib in inbounds ==> ib.(accounts := []) in configs
  }

  lemma {:induction false} SyncEachMirrors(e: Engine, inbounds: seq<Inbound>, noDial: set<string>,
      portals: map<string, string>)
    requires Mirrors(e, portals) && Within(inbounds, e.lastConfigs)
    ensures Mirrors(SyncEach(e, inbounds, noDial).0, portals)
    ensures var e' := SyncEach(e, inbounds, noDial).0; e' == e.(server := e'.server, lastAccounts := e'.lastAccounts)
    decreases inbounds
  {
    hide Mirrors;
    if inbounds != [] {
      assert inbounds[0] in inbounds;
      assert forall ib :: ib in inbounds[1..] ==> ib in inbounds;
      if Trim(inbounds[0].name) == "" || !Synced(inbounds[0]) {
        SyncEachMirrors(e, inbounds[1..], noDial, portals);
      } else if Trim(inbounds[0].name) !in noDial {
        SyncOneMirrors(e, inbounds[0], portals);
        SyncEachMirrors(SyncOne(e, inbounds[0]), inbounds[1..], noDial, portals);
      }
    }
  }

  lemma SyncAllMirrors(e: Engine, inbounds: seq<Inbound>, noDial: set<string>, portals: map<string, string>)
    requires Mirrors(e, portals) && e.lastConfigs == Stripped(inbounds)
    ensures Mirrors(SyncAll(e, inbounds, noDial).0, portals)
  {
    hide Mirrors;
    StrippedElements(inbounds);
    SyncEachMirrors(e, inbounds, noDial, portals);
    var (e', ok) := SyncEach(e, inbounds, noDial);
    if ok {
      DroppingOthersMirrors(e', inbounds, portals);
    }
  }

  lemma DroppingOthersMirrors(e: Engine, inbounds: seq<Inbound>, portals: map<string, string>)
    requires Mirrors(e, portals) && e.lastConfigs == Stripped(inbounds)
    ensures Mirrors(e.(lastAccounts := map t | t in e.lastAccounts && t in Tags(inbounds) :: e.lastAccounts[t]),
              portals)
  {
    hide Owned, MirrorsTag;
    var kept := map t | t in e.lastAccounts && t in Tags(inbounds) :: e.lastAccounts[t];
    var e' := e.(lastAccounts := kept);
    forall i | 0 <= i < |e.lastConfigs| && Tagged(e.lastConfigs[i]) && Owned(e.lastConfigs, i)
      ensures MirrorsAt(e', portals, i)
    {
      OwnedName(e.lastConfigs, i);
      assert MirrorsAt(e, portals, i);
      assert inbounds[i] in inbounds && inbounds[i].name == e.lastConfigs[i].name;
    }
  }

  lemma {:induction false} DeadServerStaysEmpty(e: Engine, inbounds: seq<Inbound>, noDial: set<string>)
    requires e.server == map[]
    ensures var e' := SyncEach(e, inbounds, noDial).0; e' == e.(lastAccounts := e'.lastAccounts)
    decreases inbounds
  {
    if inbounds != [] {
      if Trim(inbounds[0].name) == "" || !Synced(inbounds[0]) {
        DeadServerStaysEmpty(e, inbounds[1..], noDial);
      } else if Trim(inbounds[0].name) !in noDial {
        DeadServerStaysEmpty(SyncOne(e, inbounds[0]), inbounds[1..], noDial);
      }
    }
  }

  lemma {:induction false} SyncEachFrame(e: Engine, inbounds: seq<Inbound>, noDial: set<string>)
    ensures var e' := SyncEach(e, inbounds, noDial).0; e' == e.(server := e'.server, lastAccounts := e'.lastAccounts)
    decreases inbounds
  {
    if inbounds != [] {
      if Trim(inbounds[0].name) == "" || !Synced(inbounds[0]) {
        SyncEachFrame(e, inbounds[1..], noDial);
      } else if Trim(inbounds[0].name) !in noDial {
        SyncEachFrame(SyncOne(e, inbounds[0]), inbounds[1..], noDial);
      }
    }
  }

  /** Every update keeps the engine coherent: hot or cold, successful or not, including syncs that stop
      half-way on a dial error. */
  lemma UpdateCoherent(e: Engine, inbounds: seq<Inbound>, settings: Settings, env: Environment)
    requires Coherent(e)
    ensures Coherent(Update(e, inbounds, settings, env).0)
  {
    if Hot(e, inbounds, settings) {
      SyncEachFrame(e, inbounds, env.noDial);
      if !e.live {
        DeadServerStaysEmpty(e, inbounds, env.noDial);
      } else {
        SyncAllMirrors(e, inbounds, env.noDial, Portals(e.lastConfigs).value);
      }
    } else {
      RestartCoherent(e, inbounds, settings, env.starts);
    }
  }

  datatype Call = UpdateCall(inbounds: seq<Inbound>, settings: Settings, env: Environment) | StopCall

  function After(calls: seq<Call>): Engine {
    if calls == [] then NEW_ENGINE else
      var e := After(calls[..|calls| - 1]);
      match calls[|calls| - 1]
      case UpdateCall(inbounds, settings, env) => Update(e, inbounds, settings, env).0
      case StopCall => Stopped(e)
  }

  /** Over every run of updates and stops the cache mirrors the live server. */
  lemma {:induction false} AlwaysCoherent(calls: seq<Call>)
    ensures Coherent(After(calls))
  {
    if calls != [] {
      AlwaysCoherent(calls[..|calls| - 1]);
      var last := calls[|calls| - 1];
      if last.UpdateCall? {
        UpdateCoherent(After(calls[..|calls| - 1]), last.inbounds, last.settings, last.env);
      }
    }
  }

  // ---------- hot refines cold ----------

  /** A tag that no synced inbound names is left alone. */
  lemma {:induction false} SyncEachOthers(e: Engine, inbounds: seq<Inbound>, noDial: set<string>, tag: string)
    requires forall ib :: ib in inbounds && Synced(ib) ==> Trim(ib.name) != tag
    ensures var e' := SyncEach(e, inbounds, noDial).0;
            Get(e'.server, tag) == Get(e.server, tag) && Get(e'.lastAccounts, tag) == Get(e.lastAccounts, tag)
    decreases inbounds
  {
    if inbounds != [] {
      var first, rest := inbounds[0], inbounds[1..];
      assert inbounds == [first] + rest;
      if Trim(first.name) == "" || !Synced(first) {
        SyncEachOthers(e, rest, noDial, tag);
      } else if Trim(first.name) !in noDial {
        SyncEachOthers(SyncOne(e, first), rest, noDial, tag);
      }
    }
  }

  lemma {:induction false} SyncEachKeys(e: Engine, inbounds: seq<Inbound>, noDial: set<string>)
    ensures SyncEach(e, inbounds, noDial).0.server.Keys == e.server.Keys
    decreases inbounds
  {
    if inbounds != [] {
      SyncEachKeys(e, inbounds[1..], noDial);
      SyncEachKeys(SyncOne(e, inbounds[0]), inbounds[1..], noDial);
    }
  }

  lemma OwnedTail(inbounds: seq<Inbound>, i: nat)
    requires Owned(inbounds, i) && i > 0
    ensures Owned(inbounds[1..], i - 1) && Trim(inbounds[0].name) != inbounds[i].name
  {
    var rest := inbounds[1..];
    assert forall j :: 0 <= j < |rest| ==> rest[j] == inbounds[j + 1];
  }

  lemma OwnedHead(inbounds: seq<Inbound>)
    requires Owned(inbounds, 0)
    ensures forall ib :: ib in inbounds[1..] ==> Trim(ib.name) != inbounds[0].name
  {
    var rest := inbounds[1..];
    forall ib | ib in rest ensures Trim(ib.name) != inbounds[0].name {
      var j :| 0 <= j < |rest| && rest[j] == ib;
      assert inbounds[j + 1] == ib;
    }
  }

  /** The table of a synced inbound after a complete pass. */
  lemma {:induction false} SyncEachHit(e: Engine, inbounds: seq<Inbound>, noDial: set<string>, i: nat)
    requires Owned(inbounds, i) && SyncEach(e, inbounds, noDial).1 && Synced(inbounds[i]) &&
             inbounds[i].name in e.server
    ensures var ib := inbounds[i];
            && ib.name in SyncEach(e, inbounds, noDial).0.server
            && SyncEach(e, inbounds, noDial).0.server[ib.name]
               == UsersAfter(e.server[ib.name], GetOr(e.lastAccounts, ib.name, map[]), Wanted(ib.protocol, ib.accounts),
                 ib.protocol)
    decreases inbounds
  {
    hide SyncOne, UsersAfter, Wanted, Owned;
    OwnedName(inbounds, i);
    var first, rest, ib := inbounds[0], inbounds[1..], inbounds[i];
    SyncOneAt(e, first, ib.name);
    if i == 0 {
      OwnedHead(inbounds);
      SyncEachOthers(SyncOne(e, first), rest, noDial, ib.name);
    } else {
      OwnedTail(inbounds, i);
      assert inbounds == [first] + rest && rest[i - 1] == ib;
      var next := if Synced(first) && Trim(first.name) != "" then SyncOne(e, first) else e;
      assert SyncEach(e, inbounds, noDial) == SyncEach(next, rest, noDial);
      SyncEachHit(next, rest, noDial, i - 1);
    }
  }

  /** A cold restart of this VLESS account would give the user that a hot sync leaves behind: its token
      carries no outer white space, and if it is a portal user its entry is kept and still has its tag. */
  predicate VlessFaithful(a: Account, portals: map<string, string>, users: Users, before: Tokens) {
    && Trim(a.token) == a.token
    && (Trim(a.id) in portals ==>
        a.id in before && before[a.id] == a.token && a.id in users && users[a.id].VlessUser? &&
          users[a.id].reverse.Some?)
  }

  /** For Hysteria2: the token is not blank, or there is no password to fall back to. */
  predicate HysteriaFaithful(a: Account, password: string) {
    Trim(a.token) != "" || Trim(password) == ""
  }

  /** The condition, per inbound, under which the hot path may stand in for a restart. All of it can be
      read off the input, the cache and the running tables before the call. Inbounds that a hot sync skips
      must come with the accounts and credentials they had when the instance started. */
  predicate Faithful(ib: Inbound, portals: map<string, string>, users: Users, before: Tokens) {
    if Synced(ib) then forall a :: a in ib.accounts && a.id != "" ==>
      FaithfulAccount(ib.protocol, a, portals, users, before)
    else Open(ib.protocol) || SameCredentials(ib.protocol, Recorded(ib.accounts), before)
  }

  predicate FaithfulAccount(p: Protocol, a: Account, portals: map<string, string>, users: Users, before: Tokens) {
    if p.Hysteria2? then HysteriaFaithful(a, p.password) else VlessFaithful(a, portals, users, before)
  }

  predicate SameCredentials(p: Protocol, recorded: Tokens, before: Tokens) {
    recorded.Keys == before.Keys && forall id :: id in before ==> SameCredential(p, recorded[id], before[id])
  }

  /** Shadowsocks users without a token of their own share the password of the inbound. */
  predicate SameCredential(p: Protocol, a: string, b: string) {
    if !p.Shadowsocks? then a == b else OwnOrShared(a, p.password) == OwnOrShared(b, p.password)
  }

  /** The user of a protocol that a sync skips. */
  lemma SkippedUser(p: Protocol, portals: map<string, string>, id: string, a: string, b: string)
    requires !p.Vless? && !p.Hysteria2?
    ensures ColdUser(p, Account(id, a, 0), portals) == ColdUser(p, Account(id, b, 0), portals) <==>
              SameCredential(p, a, b)
  {
  }

  lemma SkippedRefines(ib: Inbound, portals: map<string, string>, users: Users, before: Tokens)
    requires !Synced(ib) && MirrorsTag(ib.protocol, portals, before, users)
    ensures users == ColdUsers(ib.protocol, ib.accounts, portals) <==> Faithful(ib, portals, users, before)
  {
    ColdUsersMirrored(ib.protocol, ib.accounts, portals);
    if !Open(ib.protocol) {
      SameTables(ib.protocol, portals, before, users, Recorded(ib.accounts),
        ColdUsers(ib.protocol, ib.accounts, portals));
    }
  }

  lemma SameTables(p: Protocol, portals: map<string, string>, before: Tokens, users: Users, recorded: Tokens,
      cold: Users)
    requires !p.Vless? && !p.Hysteria2? && !Open(p)
    requires MirrorsTag(p, portals, before, users) && MirrorsTag(p, portals, recorded, cold)
    ensures users == cold <==> SameCredentials(p, recorded, before)
  {
    hide ColdUser, OwnOrShared;
    if recorded.Keys == before.Keys {
      forall id | id in before ensures users[id] == cold[id] <==> SameCredential(p, recorded[id], before[id]) {
        SkippedUser(p, portals, id, recorded[id], before[id]);
      }
      assert users == cold <==> forall id :: id in before ==> users[id] == cold[id];
    }
  }

  lemma {:induction false} SameIds(p: Protocol, accounts: seq<Account>, portals: map<string, string>)
    requires !Open(p)
    ensures Wanted(p, accounts).Keys == ColdUsers(p, accounts, portals).Keys
    ensures forall email :: email in ColdUsers(p, accounts, portals) ==>
              exists a :: a in accounts && a.id != "" && a.id == email
  {
    if accounts != [] {
      var front, last := accounts[..|accounts| - 1], accounts[|accounts| - 1];
      SameIds(p, front, portals);
      assert last in accounts && forall a :: a in front ==> a in accounts;
    }
  }

  lemma {:induction false} LookupAccount(p: Protocol, accounts: seq<Account>, portals: map<string, string>, a: Account)
    requires !Open(p) && UniqueIds(accounts) && a in accounts && a.id != ""
    ensures a.id in Wanted(p, accounts) && Wanted(p, accounts)[a.id] == HotToken(p, a)
    ensures a.id in ColdUsers(p, accounts, portals) && ColdUsers(p, accounts, portals)[a.id] == ColdUser(p, a, portals)
  {
    var front, last := accounts[..|accounts| - 1], accounts[|accounts| - 1];
    if a != last {
      var i :| 0 <= i < |accounts| && accounts[i] == a;
      assert front[i] == a && accounts[i].id != accounts[|accounts| - 1].id;
      LookupAccount(p, front, portals, a);
    }
  }

  /** One synced inbound: the table after the hot sync is the table of a cold restart if and only if the
      inbound is faithful. */
  lemma TagRefines(ib: Inbound, portals: map<string, string>, users: Users, before: Tokens)
    requires Synced(ib) && UniqueIds(ib.accounts) && MirrorsTag(ib.protocol, portals, before, users)
    ensures UsersAfter(users, before, Wanted(ib.protocol, ib.accounts), ib.protocol) ==
              ColdUsers(ib.protocol, ib.accounts, portals)
            <==> Faithful(ib, portals, users, before)
  {
    var p, after := ib.protocol, Wanted(ib.protocol, ib.accounts);
    var hot, cold := UsersAfter(users, before, after, p), ColdUsers(p, ib.accounts, portals);
    UsersAfterSync(p, portals, users, before, after);
    SameIds(p, ib.accounts, portals);
    forall a | a in ib.accounts && a.id != ""
      ensures a.id in hot && a.id in cold
      ensures hot[a.id] == cold[a.id] <==> FaithfulAccount(p, a, portals, users, before)
    {
      LookupAccount(p, ib.accounts, portals, a);
      AccountRefines(ib, a, portals, users, before);
    }
    if Faithful(ib, portals, users, before) {
      forall email | email in cold ensures hot[email] == cold[email] {
        var a :| a in ib.accounts && a.id != "" && a.id == email;
      }
    }
  }

  lemma AccountRefines(ib: Inbound, a: Account, portals: map<string, string>, users: Users, before: Tokens)
    requires Synced(ib) && MirrorsTag(ib.protocol, portals, before, users)
    requires a in ib.accounts && a.id != ""
    requires a.id in Wanted(ib.protocol, ib.accounts) &&
             Wanted(ib.protocol, ib.accounts)[a.id] == HotToken(ib.protocol, a)
    ensures var after := Wanted(ib.protocol, ib.accounts);
            (if Unchanged(before, after, a.id) then users[a.id] else Fresh(ib.protocol, after[a.id])) ==
              ColdUser(ib.protocol, a, portals)
            <==> FaithfulAccount(ib.protocol, a, portals, users, before)
  {
    TrimIdempotent(a.token);
    if a.id in before {
      assert Describes(ib.protocol, portals, a.id, before[a.id], users[a.id]);
    }
    if ib.protocol.Hysteria2? {
      TrimIdempotent(ib.protocol.password);
    }
  }

  /** An inbound that agrees with a restart: its table after the hot path is the table of a restarted instance. */
  ghost predicate Agrees(hot: Server, cold: Server, ib: Inbound) {
    Get(hot, ib.name) == Get(cold, ib.name)
  }

  /** Hot refines cold. Take any coherent live engine and any input that a fresh instance would accept. If the update
      takes the hot path and no dial fails, an inbound that has its name for itself ends up with the table of a full
      restart if and only if it is faithful; one whose name has outer white space, if and only if its table already
      was that of a restart. So with clean names all tables are those of a restart if and only if every inbound is
      faithful. */
  lemma HotRefinesCold(e: Engine, inbounds: seq<Inbound>, settings: Settings, env: Environment)
    requires Coherent(e) && e.live && Bootable(inbounds)
    requires Hot(e, inbounds, settings) && Update(e, inbounds, settings, env).1
    ensures var hot, cold := Update(e, inbounds, settings, env).0.server,
              Restarted(e, inbounds, settings, true).0.server;
            var portals := Portals(inbounds).value;
            && hot.Keys == cold.Keys
            && (forall i :: 0 <= i < |inbounds| && Tagged(inbounds[i]) && Owned(inbounds, i) ==>
                  (Agrees(hot, cold, inbounds[i]) <==> FaithfulAt(e, inbounds[i], portals)))
            && (forall ib :: ib in inbounds && Tagged(ib) && Trim(ib.name) != ib.name ==>
                  (Agrees(hot, cold, ib) <==>
                    Get(e.server, ib.name) == Some(ColdUsers(ib.protocol, ib.accounts, portals))))
            && (CleanNames(inbounds) ==>
                (hot == cold <==> forall ib :: ib in inbounds && Tagged(ib) ==> FaithfulAt(e, ib, portals)))
  {
    hide Owned, Mirrors, Bootable, Hot, FaithfulAt, SyncEach, Boot, Agrees, Restarted, Update, ColdUsers, Coherent;
    HotIsSync(e, inbounds, settings, env);
    var portals := Portals(inbounds).value;
    var hot, cold := Update(e, inbounds, settings, env).0.server, Boot(inbounds, portals);
    BootNames(inbounds, portals);
    forall i | 0 <= i < |inbounds| && Tagged(inbounds[i]) && Owned(inbounds, i)
      ensures Agrees(hot, cold, inbounds[i]) <==> FaithfulAt(e, inbounds[i], portals)
    {
      OwnedAgrees(e, inbounds, env.noDial, portals, i);
    }
    forall ib | ib in inbounds && Tagged(ib) && Trim(ib.name) != ib.name
      ensures Agrees(hot, cold, ib) <==> Get(e.server, ib.name) == Some(ColdUsers(ib.protocol, ib.accounts, portals))
    {
      UntrimmedAgrees(e, inbounds, env.noDial, portals, ib);
    }
    if CleanNames(inbounds) {
      forall ib | ib in inbounds && Tagged(ib) ensures Agrees(hot, cold, ib) <==> FaithfulAt(e, ib, portals) {
        var i :| 0 <= i < |inbounds| && inbounds[i] == ib;
        assert Owned(inbounds, i);
      }
      TablesAgree(hot, cold, inbounds);
    }
  }

  lemma OwnedAgrees(e: Engine, inbounds: seq<Inbound>, noDial: set<string>, portals: map<string, string>, i: nat)
    requires Owned(inbounds, i) && Tagged(inbounds[i]) && Bootable(inbounds) && e.lastConfigs == Stripped(inbounds) &&
             Mirrors(e, portals)
    requires SyncEach(e, inbounds, noDial).1
    ensures Agrees(SyncEach(e, inbounds, noDial).0.server, Boot(inbounds, portals), inbounds[i]) <==>
              FaithfulAt(e, inbounds[i], portals)
  {
    hide Owned, Mirrors, FaithfulAt, SyncEach, Boot, ColdUsers, UniqueTags;
    OwnedName(inbounds, i);
    BootableTags(inbounds);
    BootLookup(inbounds, portals, inbounds[i]);
    InboundRefines(e, inbounds, noDial, portals, i);
  }

  lemma UntrimmedAgrees(e: Engine, inbounds: seq<Inbound>, noDial: set<string>, portals: map<string, string>,
      ib: Inbound)
    requires Bootable(inbounds) && ib in inbounds && Tagged(ib) && Trim(ib.name) != ib.name
    ensures Agrees(SyncEach(e, inbounds, noDial).0.server, Boot(inbounds, portals), ib) <==>
            Get(e.server, ib.name) == Some(ColdUsers(ib.protocol, ib.accounts, portals))
  {
    hide SyncEach, Boot, ColdUsers, UniqueTags;
    BootableTags(inbounds);
    BootLookup(inbounds, portals, ib);
    UntrimmedNeverSynced(e, inbounds, noDial, ib.name);
  }

  ghost predicate FaithfulAt(e: Engine, ib: Inbound, portals: map<string, string>) {
    Faithful(ib, portals, GetOr(e.server, ib.name, map[]), GetOr(e.lastAccounts, ib.name, map[]))
  }

  lemma BootableTags(inbounds: seq<Inbound>)
    requires Bootable(inbounds)
    ensures UniqueTags(inbounds)
  {
  }

  lemma HotIsSync(e: Engine, inbounds: seq<Inbound>, settings: Settings, env: Environment)
    requires Coherent(e) && e.live && Bootable(inbounds) && Hot(e, inbounds, settings) &&
             Update(e, inbounds, settings, env).1
    ensures Portals(inbounds).Some? && inbounds != []
    ensures SyncEach(e, inbounds, env.noDial).1 &&
            Update(e, inbounds, settings, env).0.server == SyncEach(e, inbounds, env.noDial).0.server
    ensures Restarted(e, inbounds, settings, true).0.server == Boot(inbounds, Portals(inbounds).value)
    ensures SyncEach(e, inbounds, env.noDial).0.server.Keys == TaggedNames(inbounds)
    ensures e.lastConfigs == Stripped(inbounds) && Mirrors(e, Portals(inbounds).value)
  {
    PortalsOfStripped(inbounds);
    StrippedElements(inbounds);
    SyncEachKeys(e, inbounds, env.noDial);
  }

  lemma TablesAgree(hot: Server, cold: Server, inbounds: seq<Inbound>)
    requires hot.Keys == cold.Keys == TaggedNames(inbounds)
    ensures hot == cold <==> forall ib :: ib in inbounds && Tagged(ib) ==> Agrees(hot, cold, ib)
  {
    if forall ib :: ib in inbounds && Tagged(ib) ==> Agrees(hot, cold, ib) {
      forall tag | tag in cold ensures hot[tag] == cold[tag] {
        var ib :| ib in inbounds && Tagged(ib) && ib.name == tag;
        assert Agrees(hot, cold, ib);
      }
    }
  }

  lemma InboundRefines(e: Engine, inbounds: seq<Inbound>, noDial: set<string>, portals: map<string, string>, i: nat)
    requires Owned(inbounds, i) && Tagged(inbounds[i]) && Bootable(inbounds) && e.lastConfigs == Stripped(inbounds) &&
             Mirrors(e, portals)
    requires SyncEach(e, inbounds, noDial).1
    ensures var ib := inbounds[i];
            && ib.name in e.server && ib.name in SyncEach(e, inbounds, noDial).0.server
            && (SyncEach(e, inbounds, noDial).0.server[ib.name] == ColdUsers(ib.protocol, ib.accounts, portals) <==>
                FaithfulAt(e, ib, portals))
  {
    hide SyncEach, Faithful, UsersAfter, ColdUsers, MirrorsTag;
    var ib := inbounds[i];
    StrippedOwned(inbounds, i);
    assert MirrorsAt(e, portals, i);
    if Synced(ib) {
      SyncEachHit(e, inbounds, noDial, i);
      TagRefines(ib, portals, e.server[ib.name], GetOr(e.lastAccounts, ib.name, map[]));
    } else {
      forall other | other in inbounds && Synced(other) ensures Trim(other.name) != ib.name {
        var j :| 0 <= j < |inbounds| && inbounds[j] == other;
      }
      SyncEachOthers(e, inbounds, noDial, ib.name);
      SkippedRefines(ib, portals, e.server[ib.name], GetOr(e.lastAccounts, ib.name, map[]));
    }
  }

  /** The hot path looks inbounds up by their trimmed name, so the table of an
      inbound whose name has outer white space is never touched, whatever accounts it is sent. */
  lemma {:induction false} UntrimmedNeverSynced(e: Engine, inbounds: seq<Inbound>, noDial: set<string>, tag: string)
    requires Trim(tag) != tag
    ensures Get(SyncEach(e, inbounds, noDial).0.server, tag) == Get(e.server, tag)
    decreases inbounds
  {
    if inbounds != [] {
      TrimIdempotent(inbounds[0].name);
      if Trim(inbounds[0].name) == "" || !Synced(inbounds[0]) {
        UntrimmedNeverSynced(e, inbounds[1..], noDial, tag);
      } else if Trim(inbounds[0].name) !in noDial {
        UntrimmedNeverSynced(SyncOne(e, inbounds[0]), inbounds[1..], noDial, tag);
      }
    }
  }

  /** And the cache forgets it: after a successful hot update a tag with outer white space has no entry, while
      its table is what it was. So the mirror breaks for such a tag exactly when it has users. */
  lemma UntrimmedForgotten(e: Engine, inbounds: seq<Inbound>, settings: Settings, env: Environment, tag: string)
    requires Trim(tag) != tag && Hot(e, inbounds, settings) && Update(e, inbounds, settings, env).1
    ensures var e' := Update(e, inbounds, settings, env).0;
            tag !in e'.lastAccounts && Get(e'.server, tag) == Get(e.server, tag)
  {
    UntrimmedNeverSynced(e, inbounds, env.noDial, tag);
    forall ib | ib in inbounds ensures Trim(ib.name) != tag {
      TrimIdempotent(ib.name);
    }
  }

  // ---------- whether an update succeeds ----------

  /** The inbounds that an instance can be started with once they come with suitable accounts. */
  predicate Restartable(inbounds: seq<Inbound>) {
    && inbounds != []
    && (forall ib :: ib in inbounds ==> Supported(ib.protocol))
    && Portals(inbounds).Some?
    && TagsFree(inbounds)
    && (Portals(inbounds).value != map[] ==> exists ib :: ib in inbounds && ib.protocol.Vless?)
  }

  /** Some engine may take the hot path: it has started with these inbounds, whatever their accounts were. */
  predicate HotReachable(inbounds: seq<Inbound>) {
    Restartable(inbounds) && forall ib :: ib in inbounds ==> !ib.protocol.Wireguard?
  }

  predicate DialsSucceed(inbounds: seq<Inbound>, noDial: set<string>) {
    forall ib :: ib in inbounds && Synced(ib) && Trim(ib.name) != "" ==> Trim(ib.name) !in noDial
  }

  lemma {:induction false} SyncEachSucceeds(e: Engine, inbounds: seq<Inbound>, noDial: set<string>)
    ensures SyncEach(e, inbounds, noDial).1 <==> DialsSucceed(inbounds, noDial)
    decreases inbounds
  {
    if inbounds != [] {
      var first, rest := inbounds[0], inbounds[1..];
      assert inbounds == [first] + rest;
      SyncEachSucceeds(if Synced(first) then SyncOne(e, first) else e, rest, noDial);
      assert DialsSucceed(inbounds, noDial) <==>
             (Synced(first) && Trim(first.name) != "" ==> Trim(first.name) !in noDial) && DialsSucceed(rest, noDial);
      if Trim(first.name) == "" {
        SyncEachSucceeds(e, rest, noDial);
      }
    }
  }

  /** An update on the hot path succeeds exactly when it can dial, one on the cold path exactly when an
      instance starts with this input. */
  lemma UpdateSucceedsExactly(e: Engine, inbounds: seq<Inbound>, settings: Settings, env: Environment)
    ensures Update(e, inbounds, settings, env).1 <==>
            if Hot(e, inbounds, settings) then DialsSucceed(inbounds, env.noDial) else env.starts && Bootable(inbounds)
  {
    SyncEachSucceeds(e, inbounds, env.noDial);
  }

  /** After a successful update the engine remembers exactly this configuration. */
  lemma SuccessRecords(e: Engine, inbounds: seq<Inbound>, settings: Settings, env: Environment)
    requires Update(e, inbounds, settings, env).1
    ensures Update(e, inbounds, settings, env).0.lastConfigs == Stripped(inbounds)
    ensures Update(e, inbounds, settings, env).0.lastSettings == settings
  {
    SyncEachFrame(e, inbounds, env.noDial);
  }

  /** What an update does to the running instance and to what the engine remembers. */
  lemma UpdateInstance(e: Engine, inbounds: seq<Inbound>, settings: Settings, env: Environment)
    requires inbounds != []
    ensures var (e', ok) := Update(e, inbounds, settings, env);
            if Hot(e, inbounds, settings) then
              e'.live == e.live && e'.instance && e'.lastConfigs == e.lastConfigs == Stripped(inbounds) &&
              e'.lastSettings == e.lastSettings == settings
            else if ok then e'.live && e'.instance && e'.lastConfigs == Stripped(inbounds) &&
              e'.lastSettings == settings
            else e' == e.(live := false, server := map[])
  {
    SyncEachFrame(e, inbounds, env.noDial);
  }

  lemma SameShape(a: seq<Inbound>, b: seq<Inbound>)
    requires Stripped(a) == Stripped(b)
    ensures |a| == |b| && forall i :: 0 <= i < |a| ==> a[i].(accounts := []) == b[i].(accounts := [])
  {
    forall i | 0 <= i < |a| ensures a[i].(accounts := []) == b[i].(accounts := []) {
      assert Stripped(a)[i] == Stripped(b)[i];
    }
  }

  lemma SameShapeTags(a: seq<Inbound>, b: seq<Inbound>)
    requires Stripped(a) == Stripped(b) && TagsFree(a)
    ensures TagsFree(b)
  {
    hide Stripped;
    SameShape(a, b);
    forall i, j | 0 <= i < j < |b| && Tagged(b[i]) && Tagged(b[j]) ensures b[i].name != b[j].name {
      assert Tagged(a[i]) && Tagged(a[j]) && a[i].name == b[i].name && a[j].name == b[j].name;
    }
    forall ib | ib in b && Tagged(ib) ensures ib.name != API_TAG {
      var i :| 0 <= i < |b| && b[i] == ib;
      assert a[i] in a && Tagged(a[i]) && a[i].name == ib.name;
    }
  }

  lemma SameShapeProtocols(a: seq<Inbound>, b: seq<Inbound>, ib: Inbound) returns (other: Inbound)
    requires Stripped(a) == Stripped(b) && ib in b
    ensures other in a && other.protocol == ib.protocol
  {
    hide Stripped;
    SameShape(a, b);
    var i :| 0 <= i < |b| && b[i] == ib;
    other := a[i];
  }

  /** Accounts do not matter for being restartable. */
  lemma SameShapeRestartable(a: seq<Inbound>, b: seq<Inbound>)
    requires Stripped(a) == Stripped(b) && HotReachable(a)
    ensures HotReachable(b)
  {
    hide Stripped, TagsFree, Supported;
    SameShape(a, b);
    SameShapeTags(a, b);
    PortalsOfStripped(a);
    PortalsOfStripped(b);
    forall ib | ib in b ensures Supported(ib.protocol) && !ib.protocol.Wireguard? {
      var other := SameShapeProtocols(a, b, ib);
    }
    if ib :| ib in a && ib.protocol.Vless? {
      var other := SameShapeProtocols(b, a, ib);
    }
  }

  lemma BootableIsRestartable(inbounds: seq<Inbound>)
    requires Bootable(inbounds)
    ensures Restartable(inbounds)
  {
    var portals := Portals(inbounds).value;
    if u :| u in portals {
      var ib, a :| ib in inbounds && ib.protocol.Vless? && a in ib.accounts && a.id != "" && Trim(a.id) == u;
    }
  }

  /** What an engine remembers of its configuration is something an instance has started with. */
  ghost predicate Remembers(e: Engine) {
    && (e.instance ==> e.lastConfigs != [])
    && (e.lastConfigs != [] ==> exists inbounds :: Bootable(inbounds) && Stripped(inbounds) == e.lastConfigs)
  }

  lemma UpdateRemembers(e: Engine, inbounds: seq<Inbound>, settings: Settings, env: Environment)
    requires Remembers(e)
    ensures Remembers(Update(e, inbounds, settings, env).0)
  {
    SyncEachFrame(e, inbounds, env.noDial);
    if !Hot(e, inbounds, settings) && env.starts && Bootable(inbounds) {
      assert |Stripped(inbounds)| == |inbounds|;
    }
  }

  lemma {:induction false} AlwaysRemembers(calls: seq<Call>)
    ensures Remembers(After(calls))
  {
    if calls != [] {
      AlwaysRemembers(calls[..|calls| - 1]);
      var last := calls[|calls| - 1];
      if last.UpdateCall? {
        UpdateRemembers(After(calls[..|calls| - 1]), last.inbounds, last.settings, last.env);
      }
    }
  }

  lemma HotIsReachable(e: Engine, inbounds: seq<Inbound>, settings: Settings)
    requires Remembers(e) && Hot(e, inbounds, settings)
    ensures HotReachable(inbounds)
  {
    var started: seq<Inbound> :| Bootable(started) && Stripped(started) == e.lastConfigs;
    BootableIsRestartable(started);
    SameShape(started, inbounds);
    forall ib | ib in started ensures !ib.protocol.Wireguard? {
      var i :| 0 <= i < |started| && started[i] == ib;
      assert inbounds[i] in inbounds && inbounds[i].protocol == started[i].protocol;
    }
    SameShapeRestartable(started, inbounds);
  }

  /** The accounts of all portal users. */
  ghost function PortalAccounts(ids: seq<string>): seq<Account> {
    seq(|ids|, i requires 0 <= i < |ids| => Account(ids[i], "", 0))
  }

  /** The same inbounds, with every VLESS inbound serving the portal users and no other accounts. */
  ghost function Suited(inbounds: seq<Inbound>, accounts: seq<Account>): seq<Inbound> {
    seq(|inbounds|,
      i requires 0 <= i < |inbounds| => inbounds[i].(accounts := if inbounds[i].protocol.Vless? then accounts else []))
  }

  lemma {:induction false} PortalsAreTrimmed(inbounds: seq<Inbound>)
    requires Portals(inbounds).Some?
    ensures forall u :: u in Portals(inbounds).value ==> u != "" && Trim(u) == u
  {
    if inbounds != [] {
      PortalsAreTrimmed(inbounds[..|inbounds| - 1]);
      var last := inbounds[|inbounds| - 1];
      if last.protocol.ReverseProxy? {
        TrimIdempotent(last.protocol.portalUser);
      }
    }
  }

  lemma {:induction false} AscendingDistinct(s: seq<string>, i: nat, j: nat)
    requires Ascending(s) && i < j < |s|
    ensures s[i] != s[j]
  {
    BeforeStrict(s[i], s[j]);
  }

  lemma PortalAccountsUnique(users: set<string>)
    ensures UniqueIds(PortalAccounts(SortedStrings(users)))
    ensures forall u :: u in users ==> Account(u, "", 0) in PortalAccounts(SortedStrings(users))
  {
    var ids := SortedStrings(users);
    SortedAscend(users);
    forall i, j | 0 <= i < j < |ids| ensures ids[i] != ids[j] {
      AscendingDistinct(ids, i, j);
    }
    forall u | u in users ensures Account(u, "", 0) in PortalAccounts(ids) {
      assert u in Elements(ids);
      var i :| 0 <= i < |ids| && ids[i] == u;
      assert PortalAccounts(ids)[i] == Account(u, "", 0);
    }
  }

  /** Some accounts let an instance start with restartable inbounds. */
  lemma RestartableBoots(inbounds: seq<Inbound>) returns (suited: seq<Inbound>)
    requires Restartable(inbounds)
    ensures Bootable(suited) && Stripped(suited) == Stripped(inbounds)
  {
    var portals := Portals(inbounds).value;
    var accounts := PortalAccounts(SortedStrings(portals.Keys));
    suited := Suited(inbounds, accounts);
    assert Stripped(suited) == Stripped(inbounds);
    PortalsOfStripped(inbounds);
    PortalsOfStripped(suited);
    PortalsAreTrimmed(inbounds);
    PortalAccountsUnique(portals.Keys);
    SuitedBoots(inbounds, accounts, portals);
  }

  lemma SuitedBoots(inbounds: seq<Inbound>, accounts: seq<Account>, portals: map<string, string>)
    requires Restartable(inbounds) && Portals(inbounds) == Some(portals) &&
             Portals(Suited(inbounds, accounts)) == Some(portals)
    requires UniqueIds(accounts)
    requires forall u :: u in portals ==> u != "" && Trim(u) == u && Account(u, "", 0) in accounts
    ensures Bootable(Suited(inbounds, accounts))
  {
    var suited := Suited(inbounds, accounts);
    forall ib | ib in suited ensures Supported(ib.protocol) && (Synced(ib) ==> UniqueIds(ib.accounts)) {
      var i :| 0 <= i < |suited| && suited[i] == ib;
      assert inbounds[i] in inbounds;
    }
    forall u | u in portals
      ensures exists ib, a :: ib in suited && ib.protocol.Vless? && a in ib.accounts && a.id != "" && Trim(a.id) == u
    {
      var v :| v in inbounds && v.protocol.Vless?;
      var i :| 0 <= i < |inbounds| && inbounds[i] == v;
      assert suited[i] in suited && suited[i].accounts == accounts;
      assert Account(u, "", 0) in suited[i].accounts;
    }
  }

  lemma RunOutcome(calls: seq<Call>, inbounds: seq<Inbound>, settings: Settings, env: Environment)
    ensures Hot(After(calls), inbounds, settings) ==> HotReachable(inbounds)
    ensures Update(After(calls), inbounds, settings, env).1 <==>
            if Hot(After(calls), inbounds, settings) then DialsSucceed(inbounds, env.noDial)
            else env.starts && Bootable(inbounds)
  {
    var e := After(calls);
    UpdateSucceedsExactly(e, inbounds, settings, env);
    AlwaysRemembers(calls);
    if Hot(e, inbounds, settings) {
      HotIsReachable(e, inbounds, settings);
    }
  }

  /** Whether an update succeeds does not depend on what the engine has run before, exactly if no engine can
      take the hot path with these inbounds, or dialling succeeds just when a fresh instance would start. */
  lemma OutcomeIndependentOfHistory(inbounds: seq<Inbound>, settings: Settings, env: Environment)
    ensures (forall calls :: Update(After(calls), inbounds, settings, env).1 <==>
              Update(NEW_ENGINE, inbounds, settings, env).1)
            <==> (HotReachable(inbounds) ==> (DialsSucceed(inbounds, env.noDial) <==> env.starts && Bootable(inbounds)))
  {
    UpdateSucceedsExactly(NEW_ENGINE, inbounds, settings, env);
    if HotReachable(inbounds) && !(DialsSucceed(inbounds, env.noDial) <==> env.starts && Bootable(inbounds)) {
      var calls := HotHistory(inbounds, settings);
      RunOutcome(calls, inbounds, settings, env);
      assert !(Update(After(calls), inbounds, settings, env).1 <==> Update(NEW_ENGINE, inbounds, settings, env).1);
    } else {
      forall calls
        ensures Update(After(calls), inbounds, settings, env).1 <==> Update(NEW_ENGINE, inbounds, settings, env).1
      {
        RunOutcome(calls, inbounds, settings, env);
      }
    }
  }

  /** A history after which the hot path is open. */
  lemma HotHistory(inbounds: seq<Inbound>, settings: Settings) returns (calls: seq<Call>)
    requires HotReachable(inbounds)
    ensures Hot(After(calls), inbounds, settings)
  {
    var suited := RestartableBoots(inbounds);
    calls := [UpdateCall(suited, settings, Environment({}, true))];
    assert calls[..0] == [] && After([]) == NEW_ENGINE;
    var e := After(calls);
    assert e == Restarted(NEW_ENGINE, suited, settings, true).0;
    assert |Stripped(inbounds)| == |inbounds|;
    assert e.instance && e.lastConfigs == Stripped(inbounds) && e.lastConfigs != [] && e.lastSettings == settings;
    assert !exists ib :: ib in inbounds && ib.protocol.Wireguard?;
    assert !NeedsRestart(e, inbounds, settings);
  }

  /** For instance: a portal user without an account keeps a fresh engine from starting, but an engine that
      once ran the same inbounds with that account carries on. */
  lemma UnservedPortalDependsOnHistory(inbounds: seq<Inbound>, settings: Settings) returns (calls: seq<Call>)
    requires HotReachable(inbounds) && !PortalsServed(inbounds, Portals(inbounds).value)
    ensures Update(After(calls), inbounds, settings, Environment({}, true)).1
    ensures !Update(NEW_ENGINE, inbounds, settings, Environment({}, true)).1
  {
    calls := HotHistory(inbounds, settings);
    UpdateSucceedsExactly(After(calls), inbounds, settings, Environment({}, true));
  }

  // ---------- a dead instance ----------

  /** A successful update leaves a running instance exactly when it restarted or one was running before.
      After a failed restart the engine still holds the closed instance, so sending the last good
      configuration again takes the hot path and reports success while nothing serves. */
  lemma SuccessMeansLive(e: Engine, inbounds: seq<Inbound>, settings: Settings, env: Environment)
    requires Coherent(e) && Update(e, inbounds, settings, env).1
    ensures Update(e, inbounds, settings, env).0.live <==> !Hot(e, inbounds, settings) || e.live
  {
    SyncEachFrame(e, inbounds, env.noDial);
  }

  lemma DeadInstanceReportsSuccess(good: seq<Inbound>, bad: seq<Inbound>, settings: Settings)
    requires Bootable(good) && (forall ib :: ib in good ==> !ib.protocol.Wireguard?)
    requires bad != [] && Stripped(bad) != Stripped(good)
    ensures var calls := [UpdateCall(good, settings, Environment({}, true)),
              UpdateCall(bad, settings, Environment({}, false))];
            Update(After(calls), good, settings, Environment({}, true)).1 &&
              !Update(After(calls), good, settings, Environment({}, true)).0.live
  {
    var c0, c1 := UpdateCall(good, settings, Environment({}, true)), UpdateCall(bad, settings, Environment({}, false));
    assert [c0, c1][..1] == [c0] && [c0][..0] == [];
    var e0 := After([]);
    assert e0 == NEW_ENGINE;
    var e1 := After([c0]);
    assert e1 == Update(NEW_ENGINE, good, settings, c0.env).0;
    assert e1.live && e1.lastConfigs == Stripped(good) && e1.lastSettings == settings;
    var e2 := After([c0, c1]);
    assert e2 == Update(e1, bad, settings, c1.env).0;
    assert !Hot(e1, bad, settings);
    assert e2 == e1.(live := false, server := map[]);
    assert Hot(e2, good, settings);
    SyncEachFrame(e2, good, {});
    SyncEachSucceeds(e2, good, {});
  }
}
