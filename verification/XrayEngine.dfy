/** The Xray engine itself: UpdateConfig and its helpers, proved against the functions of XrayAccounts. */
module XrayEngine {
  import opened Common
  import opened Configs
  import opened XrayAccounts

  function Put(server: Server, tag: string, users: Users): Server {
    if tag in server then server[tag := users] else server
  }

  /** The table half-way through a sync, when the emails in `done` have been dealt with. */
  function Partly(users: Users, before: Tokens, after: Tokens, p: Protocol, done: set<string>): Users {
    map e | e in users.Keys + after.Keys &&
            (if e in done then UserAfter(users, before, after, p, e) else Get(users, e)).Some?
      :: (if e in done then UserAfter(users, before, after, p, e) else Get(users, e)).value
  }

  lemma PartlyAt(users: Users, before: Tokens, after: Tokens, p: Protocol, done: set<string>, e: string)
    ensures Get(Partly(users, before, after, p, done), e) == if e in done then UserAfter(users, before, after, p, e)
              else Get(users, e)
  {
  }

  lemma PartlyStart(users: Users, before: Tokens, after: Tokens, p: Protocol)
    ensures Partly(users, before, after, p, {}) == users
  {
    forall e ensures Get(Partly(users, before, after, p, {}), e) == Get(users, e) {
      PartlyAt(users, before, after, p, {}, e);
    }
    SameMap(Partly(users, before, after, p, {}), users);
  }

  lemma PartlyEnd(users: Users, before: Tokens, after: Tokens, p: Protocol, done: set<string>)
    requires done == after.Keys + before.Keys
    ensures Partly(users, before, after, p, done) == UsersAfter(users, before, after, p)
  {
    var t := Partly(users, before, after, p, done);
    forall e ensures Get(t, e) == Get(UsersAfter(users, before, after, p), e) {
      PartlyAt(users, before, after, p, done, e);
      UsersAfterAt(users, before, after, p, e);
      if e !in done {
        Untouched(users, before, after, p, e);
      }
    }
    SameMap(t, UsersAfter(users, before, after, p));
  }

  lemma Untouched(users: Users, before: Tokens, after: Tokens, p: Protocol, e: string)
    requires e !in before && e !in after
    ensures UserAfter(users, before, after, p, e) == Get(users, e)
  {
  }

  lemma PartlyOneMore(users: Users, before: Tokens, after: Tokens, p: Protocol, done: set<string>, email: string)
    requires email !in done
    ensures var t0, t2 := Partly(users, before, after, p, done), Partly(users, before, after, p, done + {email});
            && Get(t0, email) == Get(users, email) && Get(t2, email) == UserAfter(users, before, after, p, email)
            && forall e :: e != email ==> Get(t2, e) == Get(t0, e)
  {
    var t0, t2 := Partly(users, before, after, p, done), Partly(users, before, after, p, done + {email});
    forall e ensures Get(t2, e) == if e == email then UserAfter(users, before, after, p, email) else Get(t0, e) {
      PartlyAt(users, before, after, p, done, e);
      PartlyAt(users, before, after, p, done + {email}, e);
    }
    PartlyAt(users, before, after, p, done, email);
  }

  /** Two tables that differ at one email only. */
  lemma OneUserMore<V>(t: map<string, V>, t': map<string, V>, email: string, user: Option<V>)
    requires Get(t', email) == user && forall e :: e != email ==> Get(t', e) == Get(t, e)
    ensures t' == if user.Some? then t[email := user.value] else t - {email}
  {
    SameMap(t', if user.Some? then t[email := user.value] else t - {email});
  }

  lemma AddStep(server: Server, tag: string, users: Users, before: Tokens, after: Tokens, p: Protocol,
      done: set<string>, email: string)
    requires email in after && email !in done
    ensures var s0 := Put(server, tag, Partly(users, before, after, p, done));
            var s2 := Put(server, tag, Partly(users, before, after, p, done + {email}));
            if Unchanged(before, after, email) then s2 == s0
            else
              var s1 := if email in before then Alter(s0, RemoveUser(tag, email)) else s0;
              s2 == Alter(s1, AddUser(tag, email, Fresh(p, after[email])))
  {
    var t0, t2 := Partly(users, before, after, p, done), Partly(users, before, after, p, done + {email});
    PartlyOneMore(users, before, after, p, done, email);
    OneUserMore(t0, t2, email, UserAfter(users, before, after, p, email));
    AddedUser(users, before, after, p, email, t0, t2);
  }

  lemma AddedUser(users: Users, before: Tokens, after: Tokens, p: Protocol, email: string, t0: Users, t2: Users)
    requires email in after && Get(t0, email) == Get(users, email)
    requires var user := UserAfter(users, before, after, p, email);
             t2 == if user.Some? then t0[email := user.value] else t0 - {email}
    ensures if Unchanged(before, after, email) then t2 == t0
            else var t1 := if email in before then t0 - {email} else t0;
                 t2 == if email in t1 then t1 else t1[email := Fresh(p, after[email])]
  {
    if email in t0 {
      assert t0[email := t0[email]] == t0;
    } else {
      assert t0 - {email} == t0;
    }
    assert (t0 - {email})[email := Fresh(p, after[email])] == t0[email := Fresh(p, after[email])];
  }

  lemma RemoveStep(server: Server, tag: string, users: Users, before: Tokens, after: Tokens, p: Protocol,
      done: set<string>, email: string)
    requires email in before && email !in after && email !in done
    ensures Put(server, tag, Partly(users, before, after, p, done + {email}))
         == Alter(Put(server, tag, Partly(users, before, after, p, done)), RemoveUser(tag, email))
  {
    var t0, t2 := Partly(users, before, after, p, done), Partly(users, before, after, p, done + {email});
    PartlyOneMore(users, before, after, p, done, email);
    assert UserAfter(users, before, after, p, email) == None;
    OneUserMore(t0, t2, email, None);
  }

  /** Every operation of a log is about this tag and an email whose credential changed. */
  ghost predicate OnlyChanges(log: seq<Operation>, tag: string, before: Tokens, after: Tokens) {
    forall op :: op in log ==> op.tag == tag && !Unchanged(before, after, op.email)
  }

  class XrayEngine {
    var instance: bool
    var live: bool
    var server: Server
    var lastConfigs: seq<Inbound>
    var lastSettings: Settings
    var lastAccounts: map<string, Tokens>
    /** Every AlterInbound request so far. */
    ghost var issued: seq<Operation>

    ghost function View(): Engine
      reads this
    {
      Engine(instance, live, server, lastConfigs, lastSettings, lastAccounts)
    }

    constructor ()
      ensures View() == NEW_ENGINE && Coherent(View())
    {
      instance, live, server := false, false, map[];
      lastConfigs, lastSettings, lastAccounts := [], Settings([], "", ""), map[];
      issued := [];
    }

    method AlterInbound(op: Operation)
      modifies this`server, this`issued
      ensures server == Alter(old(server), op) && issued == old(issued) + [op]
    {
      issued := issued + [op];
      if op.tag !in server {
        return;
      }
      match op
      case AddUser(tag, email, user) =>
        if email !in server[tag] {
          server := server[tag := server[tag][email := user]];
        }
      case RemoveUser(tag, email) =>
        server := server[tag := server[tag] - {email}];
    }

    /** The add and update requests of a sync, in an arbitrary order of the emails. */
    method AddAccounts(tag: string, p: Protocol, before: Tokens, after: Tokens)
      modifies this`server, this`issued
      ensures server == Put(old(server), tag, Partly(GetOr(old(server), tag, map[]), before, after, p, after.Keys))
      ensures old(issued) <= issued && OnlyChanges(issued[|old(issued)|..], tag, before, after)
    {
      hide Partly, UserAfter, Fresh;
      ghost var users := GetOr(server, tag, map[]);
      ghost var start := |issued|;
      PartlyStart(users, before, after, p);
      var done, rest := {}, after.Keys;
      while rest != {}
        invariant done + rest == after.Keys && done !! rest
        invariant server == Put(old(server), tag, Partly(users, before, after, p, done))
        invariant old(issued) <= issued && OnlyChanges(issued[start..], tag, before, after)
        decreases rest
      {
        var email := AnyOf(rest);
        AddStep(old(server), tag, users, before, after, p, done, email);
        if email !in before || before[email] != after[email] {
          if email in before {
            AlterInbound(RemoveUser(tag, email));
          }
          AlterInbound(AddUser(tag, email, Fresh(p, after[email])));
        }
        done, rest := done + {email}, rest - {email};
      }
      assert done == after.Keys;
    }

    method RemoveAccounts(tag: string, p: Protocol, before: Tokens, after: Tokens, ghost users: Users,
        ghost original: Server)
      requires server == Put(original, tag, Partly(users, before, after, p, after.Keys))
      modifies this`server, this`issued
      ensures server == Put(original, tag, UsersAfter(users, before, after, p))
      ensures old(issued) <= issued && OnlyChanges(issued[|old(issued)|..], tag, before, after)
    {
      ghost var start := |issued|;
      var done, rest := {}, before.Keys;
      assert after.Keys + {} == after.Keys;
      while rest != {}
        invariant done + rest == before.Keys && done !! rest
        invariant server == Put(original, tag, Partly(users, before, after, p, after.Keys + done))
        invariant old(issued) <= issued && OnlyChanges(issued[start..], tag, before, after)
        decreases rest
      {
        var email := AnyOf(rest);
        if email !in after {
          RemoveStep(original, tag, users, before, after, p, after.Keys + done, email);
          AlterInbound(RemoveUser(tag, email));
        }
        assert after.Keys + (done + {email}) == if email in after then after.Keys + done
          else (after.Keys + done) + {email};
        done, rest := done + {email}, rest - {email};
      }
      assert done == before.Keys;
      PartlyEnd(users, before, after, p, after.Keys + done);
    }

    method ReadCredentials(config: Inbound) returns (newAccounts: Tokens)
      ensures newAccounts == Wanted(config.protocol, config.accounts)
    {
      newAccounts := map[];
      for i := 0 to |config.accounts|
        invariant newAccounts == Wanted(config.protocol, config.accounts[..i])
      {
        var acc := config.accounts[i];
        assert config.accounts[..i + 1][..i] == config.accounts[..i];
        if acc.id == "" {
          continue;
        }
        var credential := Trim(acc.token);
        if config.protocol.Hysteria2? && credential == "" {
          credential := Trim(config.protocol.password);
        }
        newAccounts := newAccounts[acc.id := credential];
      }
      assert config.accounts[..|config.accounts|] == config.accounts;
    }

    /** syncAccounts: afterwards the table and the cache are those of SyncOne, and no request was sent for
        an account whose credential did not change. */
    method SyncAccounts(config: Inbound, dialOk: bool) returns (ok: bool)
      requires Synced(config) && Trim(config.name) != ""
      modifies this`server, this`issued, this`lastAccounts
      ensures ok == dialOk
      ensures View() == if ok then SyncOne(old(View()), config) else old(View())
      ensures old(issued) <= issued
      ensures OnlyChanges(issued[|old(issued)|..], Trim(config.name),
                GetOr(old(lastAccounts), Trim(config.name), map[]),
                          Wanted(config.protocol, config.accounts))
    {
      if !dialOk {
        return false;
      }
      var tag := Trim(config.name);
      var newAccounts := ReadCredentials(config);
      var oldAccounts := if tag in lastAccounts then lastAccounts[tag] else map[];
      ghost var users := GetOr(server, tag, map[]);
      AddAccounts(tag, config.protocol, oldAccounts, newAccounts);
      ghost var was := issued;
      RemoveAccounts(tag, config.protocol, oldAccounts, newAccounts, users, old(server));
      ChangesConcat(old(issued), was, issued, tag, oldAccounts, newAccounts);
      if newAccounts == map[] {
        lastAccounts := lastAccounts - {tag};
      } else {
        lastAccounts := lastAccounts[tag := newAccounts];
      }
      ok := true;
    }

    /** syncInboundAccounts. */
    method SyncInboundAccounts(inbounds: seq<Inbound>, noDial: set<string>) returns (ok: bool)
      modifies this`server, this`issued, this`lastAccounts
      ensures (View(), ok) == SyncAll(old(View()), inbounds, noDial)
    {
      var seenTags: set<string> := {};
      var i := 0;
      while i < |inbounds|
        invariant 0 <= i <= |inbounds|
        invariant seenTags == Tags(inbounds[..i])
        invariant SyncEach(old(View()), inbounds, noDial) == SyncEach(View(), inbounds[i..], noDial)
      {
        var inbound := inbounds[i];
        assert inbounds[i..][0] == inbound && inbounds[i..][1..] == inbounds[i + 1..];
        assert inbounds[..i + 1] == inbounds[..i] + [inbound];
        TagsAppend(inbounds[..i], inbound);
        i := i + 1;
        var tag := Trim(inbound.name);
        if tag == "" {
          continue;
        }
        seenTags := seenTags + {tag};
        if !inbound.protocol.Vless? && !inbound.protocol.Hysteria2? {
          continue;
        }
        var synced := SyncAccounts(inbound, tag !in noDial);
        if !synced {
          return false;
        }
      }
      assert inbounds[..i] == inbounds && inbounds[i..] == [];
      lastAccounts := map t | t in lastAccounts && t in seenTags :: lastAccounts[t];
      ok := true;
    }

    method CheckRestart(inbounds: seq<Inbound>, settings: Settings) returns (r: bool)
      ensures r == NeedsRestart(View(), inbounds, settings)
    {
      for i := 0 to |inbounds|
        invariant forall j :: 0 <= j < i ==> !inbounds[j].protocol.Wireguard?
      {
        if inbounds[i].protocol.Wireguard? {
          assert inbounds[i] in inbounds;
          return true;
        }
      }
      r := |lastConfigs| == 0 || lastConfigs != Stripped(inbounds) || lastSettings != settings;
    }

    /** buildXrayReverseConfig. */
    method BuildReverse(inbounds: seq<Inbound>) returns (portals: Option<map<string, string>>)
      ensures portals == Portals(inbounds)
    {
      var users: map<string, string> := map[];
      for i := 0 to |inbounds|
        invariant Portals(inbounds[..i]) == Some(users)
      {
        assert inbounds[..i + 1][..i] == inbounds[..i];
        if inbounds[i].protocol.ReverseProxy? {
          var r := inbounds[i].protocol;
          var tag := Trim(r.tag);
          if tag == "" {
            tag := Trim(inbounds[i].name);
          }
          var user := Trim(r.portalUser);
          if tag == "" || user == "" || (user in users && users[user] != tag) {
            PortalsFail(inbounds, i + 1);
            return None;
          }
          users := users[user := tag];
        }
      }
      assert inbounds[..|inbounds|] == inbounds;
      portals := Some(users);
    }

    /** restart: a bootable instance starts unless its environment prevents it, and then serves the inbounds. */
    method Restart(inbounds: seq<Inbound>, settings: Settings, starts: bool) returns (ok: bool)
      modifies this
      ensures (View(), ok) == Restarted(old(View()), inbounds, settings, starts)
      ensures ok ==> live && ServesInbounds(server, inbounds)
      ensures issued == old(issued)
    {
      hide Trim, Portals, ServesInbounds, Boot, Stripped, PortalsServed, RecordedAll;
      if Restarted(View(), inbounds, settings, starts).1 {
        RestartServes(View(), inbounds, settings, starts);
      }
      if |inbounds| == 0 {
        return false;
      }
      live, server := false, map[];
      var portals := BuildReverse(inbounds);
      if portals == None || !starts || !Bootable(inbounds) {
        return false;
      }
      instance, live, server := true, true, Boot(inbounds, portals.value);
      lastConfigs, lastSettings := Stripped(inbounds), settings;
      RecordAll(inbounds);
      ok := true;
    }

    /** The last loop of restart. */
    method RecordAll(inbounds: seq<Inbound>)
      modifies this`lastAccounts
      ensures lastAccounts == RecordedAll(inbounds)
    {
      hide Trim;
      lastAccounts := map[];
      for i := 0 to |inbounds|
        invariant lastAccounts == RecordedAll(inbounds[..i])
      {
        assert inbounds[..i + 1][..i] == inbounds[..i];
        var accounts := RecordAccounts(inbounds[i]);
        if Trim(inbounds[i].name) != "" && accounts != map[] {
          lastAccounts := lastAccounts[inbounds[i].name := accounts];
        }
      }
      assert inbounds[..|inbounds|] == inbounds;
    }

    method RecordAccounts(ib: Inbound) returns (accounts: Tokens)
      ensures accounts == Recorded(ib.accounts)
    {
      accounts := map[];
      for i := 0 to |ib.accounts|
        invariant accounts == Recorded(ib.accounts[..i])
      {
        assert ib.accounts[..i + 1][..i] == ib.accounts[..i];
        if ib.accounts[i].id != "" {
          accounts := accounts[ib.accounts[i].id := ib.accounts[i].token];
        }
      }
      assert ib.accounts[..|ib.accounts|] == ib.accounts;
    }

    /** UpdateConfig. Without an instance, with a WireGuard inbound, or if the settings or anything but the accounts
        of the inbounds changed, success means that a new instance serves them. */
    method UpdateConfig(inbounds: seq<Inbound>, settings: Settings, env: Environment) returns (ok: bool)
      modifies this
      ensures (View(), ok) == Update(old(View()), inbounds, settings, env)
      ensures ok && (!old(instance) || old(lastSettings) != settings || |old(lastConfigs)| != |inbounds| ||
                     exists i :: 0 <= i < |inbounds| && (inbounds[i].protocol.Wireguard? ||
                                                         old(lastConfigs)[i] != inbounds[i].(accounts := []))) ==>
                live && ServesInbounds(server, inbounds)
      ensures old(Coherent(View())) ==> Coherent(View())
    {
      if Coherent(View()) {
        UpdateCoherent(View(), inbounds, settings, env);
      }
      var cold := CheckRestart(inbounds, settings);
      if instance && !cold {
        ok := SyncInboundAccounts(inbounds, env.noDial);
        if ok {
          lastConfigs := Stripped(inbounds);
        }
        return;
      }
      ok := Restart(inbounds, settings, env.starts);
    }

    method Stop()
      modifies this
      ensures View() == Stopped(old(View()))
      ensures old(Coherent(View())) ==> Coherent(View())
    {
      instance, live, server := false, false, map[];
    }
  }

  lemma ChangesConcat(a: seq<Operation>, b: seq<Operation>, c: seq<Operation>, tag: string, before: Tokens,
      after: Tokens)
    requires a <= b <= c
    requires OnlyChanges(b[|a|..], tag, before, after) && OnlyChanges(c[|b|..], tag, before, after)
    ensures OnlyChanges(c[|a|..], tag, before, after)
  {
    assert c[|a|..] == b[|a|..] + c[|b|..];
  }

  lemma TagsAppend(front: seq<Inbound>, ib: Inbound)
    ensures Tags(front + [ib]) == Tags(front) + if Trim(ib.name) != "" then {Trim(ib.name)} else {}
  {
    forall t | t in Tags(front) ensures t in Tags(front + [ib]) {
      var x :| x in front && Trim(x.name) != "" && Trim(x.name) == t;
      assert x in front + [ib];
    }
    assert ib in front + [ib];
  }

  lemma {:induction false} PortalsFail(inbounds: seq<Inbound>, n: nat)
    requires n <= |inbounds| && Portals(inbounds[..n]) == None
    ensures Portals(inbounds) == None
    decreases |inbounds|
  {
    if n < |inbounds| {
      assert inbounds[..|inbounds| - 1][..n] == inbounds[..n];
      PortalsFail(inbounds[..|inbounds| - 1], n);
    } else {
      assert inbounds[..n] == inbounds;
    }
  }
}
