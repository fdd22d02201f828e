/** The TrustTunnel outbound manager of node/internal/engine/trusttunnel_outbound.go: one client process
    per desired tag, restarted when its configuration's signature changes. */
module Outbounds {
  import opened Common
  import opened Configs

  datatype Process = Process(id: nat, signature: string)

  /** `processes` is the manager's map; `started` counts the processes ever started and `running` holds the
      ids of those not stopped. */
  datatype State = State(processes: map<string, Process>, started: nat, running: set<nat>)

  const NEW_MANAGER: State := State(map[], 0, {})

  // ---------- configurations ----------

  function Join(parts: seq<string>, separator: string): string {
    if parts == [] then "" else if |parts| == 1 then parts[0] else parts[0] + separator + Join(parts[1..], separator)
  }

  function BoolText(b: bool): string {
    if b then "true" else "false"
  }

  function SignatureParts(c: ClientConfig): (parts: seq<string>)
    ensures |parts| == 9
  {
    [Trim(c.hostname), Join(c.addresses, ","), Trim(c.username), Trim(c.password), Trim(c.certificatePem),
     BoolText(c.skipVerification), Lower(Trim(c.upstreamProtocol)), BoolText(c.antiDpi), Trim(c.customSni)]
  }

  /** trustTunnelOutboundSignature. */
  function Signature(c: ClientConfig): string {
    Join(SignatureParts(c), "|")
  }

  /** The checks that startTrustTunnelOutboundProcess makes before it starts anything. */
  predicate Startable(c: ClientConfig) {
    Trim(c.hostname) != "" && (exists a :: a in c.addresses && Trim(a) != "") && Trim(c.username) != "" &&
      Trim(c.password) != ""
  }

  predicate Relevant(o: Outbound) {
    o.isTrustTunnel && Trim(o.tag) != "" && o.client.Some?
  }

  /** The desired configurations by tag; of two outbounds with one tag the later counts. */
  function Desired(outbounds: seq<Outbound>): map<string, ClientConfig> {
    if outbounds == [] then map[] else
      var o := outbounds[|outbounds| - 1];
      var front := Desired(outbounds[..|outbounds| - 1]);
      if Relevant(o) then front[Trim(o.tag) := o.client.value] else front
  }

  // ---------- sync ----------

  predicate UpToDate(processes: map<string, Process>, tag: string, c: ClientConfig) {
    tag in processes && processes[tag].signature == Signature(c)
  }

  /** The tag has a matching process, or can get one. */
  predicate TagSucceeds(processes: map<string, Process>, tag: string, c: ClientConfig, fails: set<string>) {
    UpToDate(processes, tag, c) || (Startable(c) && tag !in fails)
  }

  /** One tag of the sync. `fails` are the tags for which the operating system cannot start a process. */
  function SyncTag(s: State, tag: string, c: ClientConfig, fails: set<string>): (State, bool) {
    if UpToDate(s.processes, tag, c) then (s, true)
    else if !Startable(c) || tag in fails then (s, false)
    else
      var running := s.running + {s.started};
      (State(s.processes[tag := Process(s.started, Signature(c))], s.started + 1,
             if tag in s.processes then running - {s.processes[tag].id} else running), true)
  }

  /** The desired tags one after the other, up to the first failure. */
  function SyncTags(s: State, tags: seq<string>, desired: map<string, ClientConfig>, fails: set<string>): (State, bool)
    requires forall t :: t in tags ==> t in desired
    decreases tags
  {
    if tags == [] then (s, true) else
      var (s', ok) := SyncTag(s, tags[0], desired[tags[0]], fails);
      if ok then SyncTags(s', tags[1..], desired, fails) else (s', false)
  }

  /** Stopping the processes of some tags. */
  function Drop(s: State, gone: set<string>): State {
    State(map t | t in s.processes && t !in gone :: s.processes[t], s.started,
          s.running - set t | t in s.processes && t in gone :: s.processes[t].id)
  }

  /** Stopping every process whose tag is no longer desired. */
  function DropUndesired(s: State, desired: set<string>): State {
    Drop(s, s.processes.Keys - desired)
  }

  ghost function Sync(s: State, outbounds: seq<Outbound>, fails: set<string>): (State, bool) {
    var desired := Desired(outbounds);
    var (s', ok) := SyncTags(s, SortedStrings(desired.Keys), desired, fails);
    if ok then (DropUndesired(s', desired.Keys), true) else (s', false)
  }

  // ---------- every process is tracked or stopped ----------

  /** The running processes are exactly those in the map, each under one tag only. */
  ghost predicate Tracked(s: State) {
    && (forall id :: id in s.running <==> exists t :: t in s.processes && s.processes[t].id == id)
    && (forall t, u :: t in s.processes && u in s.processes && t != u ==> s.processes[t].id != s.processes[u].id)
    && (forall t :: t in s.processes ==> s.processes[t].id < s.started)
  }

  lemma SyncTagTracked(s: State, tag: string, c: ClientConfig, fails: set<string>)
    requires Tracked(s)
    ensures Tracked(SyncTag(s, tag, c, fails).0)
  {
    var s' := SyncTag(s, tag, c, fails).0;
    if s' != s {
      forall id ensures id in s'.running <==> exists t :: t in s'.processes && s'.processes[t].id == id {
        if t :| t in s.processes && s.processes[t].id == id && t != tag {
          assert t in s'.processes && s'.processes[t].id == id;
        }
        if id == s.started {
          assert tag in s'.processes && s'.processes[tag].id == id;
        }
      }
    }
  }

  lemma {:induction false} SyncTagsTracked(s: State, tags: seq<string>, desired: map<string, ClientConfig>,
      fails: set<string>)
    requires Tracked(s) && forall t :: t in tags ==> t in desired
    ensures Tracked(SyncTags(s, tags, desired, fails).0)
    decreases tags
  {
    if tags != [] {
      SyncTagTracked(s, tags[0], desired[tags[0]], fails);
      SyncTagsTracked(SyncTag(s, tags[0], desired[tags[0]], fails).0, tags[1..], desired, fails);
    }
  }

  lemma DropTracked(s: State, desired: set<string>)
    requires Tracked(s)
    ensures Tracked(DropUndesired(s, desired))
  {
    var s' := DropUndesired(s, desired);
    forall id ensures id in s'.running <==> exists t :: t in s'.processes && s'.processes[t].id == id {
      if id in s'.running {
        var t :| t in s.processes && s.processes[t].id == id;
        assert t in s'.processes;
      }
      if t :| t in s'.processes && s'.processes[t].id == id {
        assert t in s.processes;
      }
    }
  }

  /** After any sync, successful or not, no process runs untracked. */
  lemma SyncTracked(s: State, outbounds: seq<Outbound>, fails: set<string>)
    requires Tracked(s)
    ensures Tracked(Sync(s, outbounds, fails).0)
  {
    var desired := Desired(outbounds);
    assert Elements(SortedStrings(desired.Keys)) == desired.Keys;
    SyncTagsTracked(s, SortedStrings(desired.Keys), desired, fails);
    DropTracked(SyncTags(s, SortedStrings(desired.Keys), desired, fails).0, desired.Keys);
  }

  // ---------- convergence ----------

  /** s' brings the tags in `done` up to date, keeps every process that already was, and leaves the rest alone. */
  ghost predicate Reached(s: State, s': State, done: seq<string>, desired: map<string, ClientConfig>)
    requires forall t :: t in done ==> t in desired
  {
    && (forall t :: t in done ==> UpToDate(s'.processes, t, desired[t]))
    && (forall t :: t in done && UpToDate(s.processes, t, desired[t]) ==> s'.processes[t] == s.processes[t])
    && (forall t :: t !in done ==> Get(s'.processes, t) == Get(s.processes, t))
  }

  lemma SyncTagReaches(s: State, tag: string, desired: map<string, ClientConfig>, fails: set<string>)
    requires tag in desired
    ensures var (s', ok) := SyncTag(s, tag, desired[tag], fails);
            if ok then Reached(s, s', [tag], desired) else s' == s
  {
  }

  lemma ReachedCompose(s: State, s1: State, s2: State, first: string, done: seq<string>,
      desired: map<string, ClientConfig>)
    requires first in desired && (forall t :: t in done ==> t in desired) && first !in done
    requires Reached(s, s1, [first], desired) && Reached(s1, s2, done, desired)
    ensures Reached(s, s2, [first] + done, desired)
  {
    assert forall t :: t in [first] + done <==> t == first || t in done;
    assert Get(s2.processes, first) == Get(s1.processes, first);
    forall t | t in done ensures UpToDate(s.processes, t, desired[t]) ==> s2.processes[t] == s.processes[t] {
      assert Get(s1.processes, t) == Get(s.processes, t);
    }
  }

  lemma AscendingTail(tags: seq<string>)
    requires Ascending(tags) && tags != []
    ensures Ascending(tags[1..]) && tags[0] !in tags[1..]
  {
    var rest := tags[1..];
    forall i | 0 <= i < |rest| ensures rest[i] != tags[0] {
      BeforeStrict(tags[0], tags[i + 1]);
    }
    forall i, j | 0 <= i < j < |rest| ensures Before(rest[i], rest[j]) {
      assert Before(tags[i + 1], tags[j + 1]);
    }
  }

  /** How far a pass over the tags gets. */
  function Reach(s: State, tags: seq<string>, desired: map<string, ClientConfig>, fails: set<string>): (k: nat)
    requires forall t :: t in tags ==> t in desired
    ensures k <= |tags| && (SyncTags(s, tags, desired, fails).1 <==> k == |tags|)
    decreases tags
  {
    if tags == [] then 0 else
      var (s1, ok) := SyncTag(s, tags[0], desired[tags[0]], fails);
      if ok then 1 + Reach(s1, tags[1..], desired, fails) else 0
  }

  lemma TagsSplit(tags: seq<string>, m: nat)
    requires tags != [] && m < |tags|
    ensures tags[..m + 1] == [tags[0]] + tags[1..][..m]
    ensures forall t :: t in tags[1..][..m] ==> t in tags[1..]
    ensures forall t :: t in tags[1..] ==> t in tags
  {
  }

  /** The tags reached are brought up to date, and nothing else changes. */
  lemma {:induction false} SyncTagsReach(s: State, tags: seq<string>, desired: map<string, ClientConfig>,
      fails: set<string>)
    requires Ascending(tags) && forall t :: t in tags ==> t in desired
    ensures forall t :: t in tags[..Reach(s, tags, desired, fails)] ==> t in desired
    ensures Reached(s, SyncTags(s, tags, desired, fails).0, tags[..Reach(s, tags, desired, fails)], desired)
    decreases tags
  {
    if tags != [] {
      var first, rest := tags[0], tags[1..];
      AscendingTail(tags);
      SyncTagReaches(s, first, desired, fails);
      var (s1, ok) := SyncTag(s, first, desired[first], fails);
      if ok {
        var m := Reach(s1, rest, desired, fails);
        TagsSplit(tags, m);
        SyncTagsReach(s1, rest, desired, fails);
        ReachedCompose(s, s1, SyncTags(s1, rest, desired, fails).0, first, rest[..m], desired);
      }
    }
  }

  /** The first tag not reached is out of date and cannot be started. */
  lemma {:induction false} StopsAtFailure(s: State, tags: seq<string>, desired: map<string, ClientConfig>,
      fails: set<string>)
    requires Ascending(tags) && (forall t :: t in tags ==> t in desired) && Reach(s, tags, desired, fails) < |tags|
    ensures var t := tags[Reach(s, tags, desired, fails)]; !TagSucceeds(s.processes, t, desired[t], fails)
    decreases tags
  {
    var first, rest := tags[0], tags[1..];
    AscendingTail(tags);
    SyncTagReaches(s, first, desired, fails);
    var (s1, ok) := SyncTag(s, first, desired[first], fails);
    if ok {
      var m := Reach(s1, rest, desired, fails);
      StopsAtFailure(s1, rest, desired, fails);
      assert tags[m + 1] == rest[m];
      StaysFailing(s, s1, rest[m], first, desired, fails);
    }
  }

  lemma ListedTags(desired: map<string, ClientConfig>)
    ensures forall t :: t in SortedStrings(desired.Keys) <==> t in desired
  {
    forall t ensures t in SortedStrings(desired.Keys) <==> t in desired {
      assert t in Elements(SortedStrings(desired.Keys)) <==> t in desired.Keys;
    }
  }

  lemma StaysFailing(s: State, s1: State, tag: string, first: string, desired: map<string, ClientConfig>,
      fails: set<string>)
    requires first in desired && tag in desired && tag != first && Reached(s, s1, [first], desired)
    ensures TagSucceeds(s1.processes, tag, desired[tag], fails) <==> TagSucceeds(s.processes, tag, desired[tag], fails)
  {
    assert Get(s1.processes, tag) == Get(s.processes, tag);
  }

  lemma AscendingPrefix(tags: seq<string>, k: nat, t: string)
    requires Ascending(tags) && k < |tags| && t in tags
    ensures t in tags[..k] <==> Before(t, tags[k])
  {
    var i :| 0 <= i < |tags| && tags[i] == t;
    if i < k {
      assert tags[..k][i] == t;
    } else if i > k {
      BeforeStrict(tags[k], t);
    } else if Before(t, t) {
      BeforeStrict(t, t);
    }
    if t in tags[..k] {
      var j :| 0 <= j < k && tags[..k][j] == t;
      assert tags[j] == t;
    }
  }

  /** A successful sync leaves exactly the desired tags with matching signatures, and keeps the very
      process of every tag whose signature did not change. */
  lemma SyncConverges(s: State, outbounds: seq<Outbound>, fails: set<string>)
    requires Sync(s, outbounds, fails).1
    ensures var s', desired := Sync(s, outbounds, fails).0, Desired(outbounds);
            && s'.processes.Keys == desired.Keys
            && (forall t :: t in desired ==> UpToDate(s'.processes, t, desired[t]))
            && (forall t :: t in desired && UpToDate(s.processes, t, desired[t]) ==> s'.processes[t] == s.processes[t])
  {
    var desired := Desired(outbounds);
    var tags := SortedStrings(desired.Keys);
    SortedAscend(desired.Keys);
    ListedTags(desired);
    SyncTagsReach(s, tags, desired, fails);
    assert tags[..|tags|] == tags;
    var s1 := SyncTags(s, tags, desired, fails).0;
    forall t
      ensures t in DropUndesired(s1, desired.Keys).processes <==> t in desired
      ensures t in desired ==> Kept(s, DropUndesired(s1, desired.Keys), t, desired[t])
    {
      DropKeeps(s1, desired.Keys, t);
      ConvergedAt(s, s1, DropUndesired(s1, desired.Keys), tags, desired, t);
    }
  }

  /** One tag after a sync: up to date, by the same process as before if that already was. */
  ghost predicate Kept(s: State, s': State, t: string, c: ClientConfig) {
    UpToDate(s'.processes, t, c) && (UpToDate(s.processes, t, c) ==> s'.processes[t] == s.processes[t])
  }

  lemma ConvergedAt(s: State, s1: State, s2: State, tags: seq<string>, desired: map<string, ClientConfig>, t: string)
    requires (forall u :: u in tags ==> u in desired) && Reached(s, s1, tags, desired)
    requires Get(s2.processes, t) == if t in desired then Get(s1.processes, t) else None
    ensures t in tags ==> Kept(s, s2, t, desired[t])
    ensures t !in desired ==> t !in s2.processes
  {
  }

  lemma DropKeeps(s: State, desired: set<string>, t: string)
    ensures Get(DropUndesired(s, desired).processes, t) == if t in desired then Get(s.processes, t) else None
  {
  }

  /** A sync fails at a tag that is out of date and cannot be started. Then exactly the smaller desired tags
      are up to date and all others, desired or not, have the processes they had. */
  lemma FailureChangesSmallerTags(s: State, outbounds: seq<Outbound>, fails: set<string>) returns (failed: string)
    requires !Sync(s, outbounds, fails).1
    ensures var s', desired := Sync(s, outbounds, fails).0, Desired(outbounds);
            && failed in desired && !UpToDate(s.processes, failed, desired[failed]) &&
               (!Startable(desired[failed]) || failed in fails)
            && (forall t :: t in desired && Before(t, failed) ==> UpToDate(s'.processes, t, desired[t]))
            && (forall t :: !(t in desired && Before(t, failed)) ==> Get(s'.processes, t) == Get(s.processes, t))
  {
    var desired := Desired(outbounds);
    var tags := SortedStrings(desired.Keys);
    SortedAscend(desired.Keys);
    ListedTags(desired);
    var k := Reach(s, tags, desired, fails);
    SyncTagsReach(s, tags, desired, fails);
    StopsAtFailure(s, tags, desired, fails);
    failed := tags[k];
    forall t ensures t in tags[..k] <==> t in desired && Before(t, failed) {
      if t in desired {
        AscendingPrefix(tags, k, t);
      }
    }
  }

  lemma {:induction false} NothingToDo(s: State, tags: seq<string>, desired: map<string, ClientConfig>,
      fails: set<string>)
    requires forall t :: t in tags ==> t in desired && UpToDate(s.processes, t, desired[t])
    ensures SyncTags(s, tags, desired, fails) == (s, true)
    decreases tags
  {
    if tags != [] {
      assert tags[0] in tags;
      NothingToDo(s, tags[1..], desired, fails);
    }
  }

  /** A second identical sync starts and stops nothing, and succeeds whatever could fail. */
  lemma SecondSyncDoesNothing(s: State, outbounds: seq<Outbound>, fails: set<string>, later: set<string>)
    requires Sync(s, outbounds, fails).1
    ensures Sync(Sync(s, outbounds, fails).0, outbounds, later) == (Sync(s, outbounds, fails).0, true)
  {
    var s', desired := Sync(s, outbounds, fails).0, Desired(outbounds);
    SyncConverges(s, outbounds, fails);
    var tags := SortedStrings(desired.Keys);
    assert Elements(tags) == desired.Keys;
    forall t | t in tags ensures t in desired {
      assert t in Elements(tags);
    }
    NothingToDo(s', tags, desired, later);
    DropNone(s');
    assert s'.processes.Keys - desired.Keys == {};
  }

  // ---------- whether a sync succeeds ----------

  lemma {:induction false} SyncTagsSucceed(s: State, tags: seq<string>, desired: map<string, ClientConfig>,
      fails: set<string>)
    requires Ascending(tags) && forall t :: t in tags ==> t in desired
    ensures SyncTags(s, tags, desired, fails).1 <==>
              forall t :: t in tags ==> TagSucceeds(s.processes, t, desired[t], fails)
    decreases tags
  {
    if tags != [] {
      var first, rest := tags[0], tags[1..];
      AscendingTail(tags);
      assert tags == [first] + rest;
      var (s1, ok) := SyncTag(s, first, desired[first], fails);
      assert ok <==> TagSucceeds(s.processes, first, desired[first], fails);
      if ok {
        SyncTagsSucceed(s1, rest, desired, fails);
        forall t | t in rest
          ensures TagSucceeds(s1.processes, t, desired[t], fails) <==> TagSucceeds(s.processes, t, desired[t], fails)
        {
          assert t != first;
        }
      }
    }
  }

  predicate AllSucceed(processes: map<string, Process>, desired: map<string, ClientConfig>, fails: set<string>) {
    forall t :: t in desired ==> TagSucceeds(processes, t, desired[t], fails)
  }

  /** A sync succeeds exactly when every desired tag has a matching process or can get one. */
  lemma SyncSucceedsExactly(s: State, outbounds: seq<Outbound>, fails: set<string>)
    ensures Sync(s, outbounds, fails).1 <==> AllSucceed(s.processes, Desired(outbounds), fails)
  {
    var desired := Desired(outbounds);
    var tags := SortedStrings(desired.Keys);
    SortedAscend(desired.Keys);
    ListedTags(desired);
    SyncTagsSucceed(s, tags, desired, fails);
  }

  // ---------- the outbounds in force ----------

  ghost predicate AsksFor(o: Outbound, tag: string) {
    o.isTrustTunnel && o.client.Some? && tag != "" && Trim(o.tag) == tag
  }

  /** The i-th outbound is the one in force for a tag: the last TrustTunnel outbound with that tag and a client. */
  ghost predicate InForce(outbounds: seq<Outbound>, tag: string, i: int) {
    0 <= i < |outbounds| && AsksFor(outbounds[i], tag) && forall j :: i < j < |outbounds| ==>
      !AsksFor(outbounds[j], tag)
  }

  lemma {:induction false} DesiredMeaning(outbounds: seq<Outbound>, tag: string)
    ensures tag in Desired(outbounds) <==> exists i :: InForce(outbounds, tag, i)
    ensures forall i :: InForce(outbounds, tag, i) ==> Get(Desired(outbounds), tag) == outbounds[i].client
  {
    hide Trim;
    if outbounds != [] {
      var n := |outbounds| - 1;
      var front, last := outbounds[..n], outbounds[n];
      DesiredMeaning(front, tag);
      if AsksFor(last, tag) {
        assert InForce(outbounds, tag, n);
      } else {
        forall i ensures InForce(outbounds, tag, i) <==> InForce(front, tag, i) {
          assert forall j :: 0 <= j < n ==> front[j] == outbounds[j];
        }
      }
    }
  }

  /** A process can be started: there is a hostname, an address, a user and a password. */
  ghost predicate Complete(c: ClientConfig) {
    Trim(c.hostname) != "" && Trim(c.username) != "" && Trim(c.password) != "" &&
    exists i :: 0 <= i < |c.addresses| && Trim(c.addresses[i]) != ""
  }

  /** The processes are those of the outbounds in force, one for each tag, each started with that signature. */
  ghost predicate Reflects(processes: map<string, Process>, outbounds: seq<Outbound>) {
    && (forall t :: t in processes <==> exists i :: InForce(outbounds, t, i))
    && (forall t, i :: InForce(outbounds, t, i) ==>
         t in processes && processes[t].signature == Signature(outbounds[i].client.value))
  }

  /** A sync succeeds if and only if every outbound in force has a process with its signature, or is complete and can be
      started. Then the processes reflect the outbounds, and none was touched whose signature did not change. */
  lemma SyncReflects(s: State, outbounds: seq<Outbound>, fails: set<string>)
    ensures Sync(s, outbounds, fails).1 <==>
              forall t, i :: InForce(outbounds, t, i) ==>
                var c := outbounds[i].client.value;
                (t in s.processes && s.processes[t].signature == Signature(c)) || (Complete(c) && t !in fails)
    ensures Sync(s, outbounds, fails).1 ==> Reflects(Sync(s, outbounds, fails).0.processes, outbounds)
    ensures Sync(s, outbounds, fails).1 ==>
              forall t, i :: InForce(outbounds, t, i) && t in s.processes &&
                             s.processes[t].signature == Signature(outbounds[i].client.value) ==>
                Get(Sync(s, outbounds, fails).0.processes, t) == Some(s.processes[t])
  {
    hide Signature, Startable, Complete, InForce, Desired, Sync;
    var desired := Desired(outbounds);
    forall t, i | InForce(outbounds, t, i) ensures 0 <= i < |outbounds| && outbounds[i].client.Some? {
      ForceIsIndex(outbounds, t, i);
    }
    forall t
      ensures t in desired <==> exists i :: InForce(outbounds, t, i)
      ensures forall i :: InForce(outbounds, t, i) ==> Get(desired, t) == outbounds[i].client
    {
      DesiredMeaning(outbounds, t);
    }
    forall c: ClientConfig ensures Startable(c) <==> Complete(c) {
      StartableExactly(c);
    }
    SyncSucceedsExactly(s, outbounds, fails);
    if Sync(s, outbounds, fails).1 {
      SyncConverges(s, outbounds, fails);
      var s' := Sync(s, outbounds, fails).0;
      forall t ensures t in s'.processes <==> exists i :: InForce(outbounds, t, i) {
        assert t in s'.processes.Keys <==> t in desired.Keys;
      }
      forall t, i | InForce(outbounds, t, i) ensures t in desired && desired[t] == outbounds[i].client.value {
        assert Get(desired, t) == outbounds[i].client;
      }
    }
  }

  lemma ForceIsIndex(outbounds: seq<Outbound>, tag: string, i: int)
    requires InForce(outbounds, tag, i)
    ensures 0 <= i < |outbounds| && outbounds[i].client.Some?
  {
  }

  lemma StartableExactly(c: ClientConfig)
    ensures Startable(c) <==> Complete(c)
  {
    hide Trim;
    if a :| a in c.addresses && Trim(a) != "" {
      var i :| 0 <= i < |c.addresses| && c.addresses[i] == a;
    }
  }

  // ---------- what a signature tells ----------

  lemma {:induction false} JoinTells(parts: seq<string>, i: nat, x: string, separator: string)
    requires i < |parts|
    ensures Join(parts[i := x], separator) == Join(parts, separator) <==> x == parts[i]
  {
    var changed := parts[i := x];
    if |parts| == 1 {
    } else if i == 0 {
      assert changed[1..] == parts[1..];
      Cancel("", x, parts[0], separator + Join(parts[1..], separator));
      assert Join(changed, separator) == "" + x + (separator + Join(parts[1..], separator));
      assert Join(parts, separator) == "" + parts[0] + (separator + Join(parts[1..], separator));
    } else {
      assert changed[1..] == parts[1..][i - 1 := x];
      JoinTells(parts[1..], i - 1, x, separator);
      Cancel(parts[0] + separator, Join(changed[1..], separator), Join(parts[1..], separator), "");
      assert Join(changed, separator) == parts[0] + separator + Join(changed[1..], separator) + "";
      assert Join(parts, separator) == parts[0] + separator + Join(parts[1..], separator) + "";
    }
  }

  lemma {:induction false} JoinApart(a: seq<string>, b: seq<string>)
    requires |a| == |b| && forall i :: 0 <= i < |a| ==> '|' !in a[i] && '|' !in b[i]
    ensures Join(a, "|") == Join(b, "|") <==> a == b
  {
    if |a| > 1 {
      assert forall i :: 0 <= i < |a| - 1 ==> a[1..][i] == a[i + 1] && b[1..][i] == b[i + 1];
      JoinApart(a[1..], b[1..]);
      assert a == [a[0]] + a[1..] && b == [b[0]] + b[1..];
      if Join(a, "|") == Join(b, "|") {
        HeadsApart(a[0], Join(a[1..], "|"), b[0], Join(b[1..], "|"));
      }
    } else if |a| == 1 {
      assert a == [a[0]] && b == [b[0]];
    }
  }

  lemma HeadsApart(a: string, x: string, b: string, y: string)
    requires '|' !in a && '|' !in b && a + "|" + x == b + "|" + y
    ensures a == b && x == y
  {
    var s := a + "|" + x;
    assert s[|a|] == '|' && s[|b|] == '|';
    assert forall k :: 0 <= k < |a| ==> s[k] == a[k];
    assert forall k :: 0 <= k < |b| ==> s[k] == b[k];
    assert a == s[..|a|] == s[..|b|] == b;
    assert x == s[|a| + 1..] == y;
  }

  /** A new value of any one field changes the signature, and so restarts the process, exactly if it differs by more
      than outer white space, or the case of the protocol. */
  lemma SignatureTells(c: ClientConfig, x: string, b: bool, i: nat)
    ensures Signature(c.(hostname := x)) == Signature(c) <==> Trim(x) == Trim(c.hostname)
    ensures i < |c.addresses| ==>
              (Signature(c.(addresses := c.addresses[i := x])) == Signature(c) <==> x == c.addresses[i])
    ensures Signature(c.(username := x)) == Signature(c) <==> Trim(x) == Trim(c.username)
    ensures Signature(c.(password := x)) == Signature(c) <==> Trim(x) == Trim(c.password)
    ensures Signature(c.(certificatePem := x)) == Signature(c) <==> Trim(x) == Trim(c.certificatePem)
    ensures Signature(c.(skipVerification := b)) == Signature(c) <==> b == c.skipVerification
    ensures Signature(c.(upstreamProtocol := x)) == Signature(c) <==> Lower(Trim(x)) == Lower(Trim(c.upstreamProtocol))
    ensures Signature(c.(antiDpi := b)) == Signature(c) <==> b == c.antiDpi
    ensures Signature(c.(customSni := x)) == Signature(c) <==> Trim(x) == Trim(c.customSni)
  {
    hide Signature, Trim, Lower, BoolText;
    UserTells(c, x);
    EndpointTells(c, x, i);
    FlagsTell(c, b);
  }

  lemma UserTells(c: ClientConfig, x: string)
    ensures Signature(c.(username := x)) == Signature(c) <==> Trim(x) == Trim(c.username)
    ensures Signature(c.(password := x)) == Signature(c) <==> Trim(x) == Trim(c.password)
    ensures Signature(c.(certificatePem := x)) == Signature(c) <==> Trim(x) == Trim(c.certificatePem)
  {
    hide Trim, Lower, Join, BoolText, Signature;
    FieldTells(c, c.(username := x), 2, Trim(x));
    FieldTells(c, c.(password := x), 3, Trim(x));
    FieldTells(c, c.(certificatePem := x), 4, Trim(x));
  }

  lemma EndpointTells(c: ClientConfig, x: string, i: nat)
    ensures Signature(c.(hostname := x)) == Signature(c) <==> Trim(x) == Trim(c.hostname)
    ensures i < |c.addresses| ==>
              (Signature(c.(addresses := c.addresses[i := x])) == Signature(c) <==> x == c.addresses[i])
    ensures Signature(c.(upstreamProtocol := x)) == Signature(c) <==> Lower(Trim(x)) == Lower(Trim(c.upstreamProtocol))
    ensures Signature(c.(customSni := x)) == Signature(c) <==> Trim(x) == Trim(c.customSni)
  {
    hide Trim, Lower, Join, BoolText, Signature;
    FieldTells(c, c.(hostname := x), 0, Trim(x));
    FieldTells(c, c.(upstreamProtocol := x), 6, Lower(Trim(x)));
    FieldTells(c, c.(customSni := x), 8, Trim(x));
    if i < |c.addresses| {
      JoinTells(c.addresses, i, x, ",");
      FieldTells(c, c.(addresses := c.addresses[i := x]), 1, Join(c.addresses[i := x], ","));
    }
  }

  lemma FlagsTell(c: ClientConfig, b: bool)
    ensures Signature(c.(skipVerification := b)) == Signature(c) <==> b == c.skipVerification
    ensures Signature(c.(antiDpi := b)) == Signature(c) <==> b == c.antiDpi
  {
    hide Trim, Lower, Join, BoolText, Signature;
    BoolTexts();
    FieldTells(c, c.(skipVerification := b), 5, BoolText(b));
    FieldTells(c, c.(antiDpi := b), 7, BoolText(b));
  }

  lemma FieldTells(c: ClientConfig, d: ClientConfig, k: nat, v: string)
    requires k < 9 && SignatureParts(d) == SignatureParts(c)[k := v]
    ensures Signature(d) == Signature(c) <==> v == SignatureParts(c)[k]
  {
    hide SignatureParts;
    JoinTells(SignatureParts(c), k, v, "|");
  }

  lemma BoolTexts()
    ensures forall b, d :: BoolText(b) == BoolText(d) <==> b == d
    ensures forall b :: '|' !in BoolText(b)
  {
  }

  /** The field separator occurs in no text of the configuration. */
  ghost predicate BarFree(c: ClientConfig) {
    '|' !in Trim(c.hostname) && '|' !in Join(c.addresses, ",") && '|' !in Trim(c.username) &&
      '|' !in Trim(c.password) &&
    '|' !in Trim(c.certificatePem) && '|' !in Lower(Trim(c.upstreamProtocol)) && '|' !in Trim(c.customSni)
  }

  /** Signatures without a separator inside a field are equal exactly if the configurations are, up to outer white space
      and the case of the protocol, and as far as the joined addresses go. */
  lemma SignaturesTellApart(c: ClientConfig, d: ClientConfig)
    requires BarFree(c) && BarFree(d)
    ensures Signature(c) == Signature(d) <==>
            && Trim(c.hostname) == Trim(d.hostname) && Join(c.addresses, ",") == Join(d.addresses, ",")
            && Trim(c.username) == Trim(d.username) && Trim(c.password) == Trim(d.password)
            && Trim(c.certificatePem) == Trim(d.certificatePem) && c.skipVerification == d.skipVerification
            && Lower(Trim(c.upstreamProtocol)) == Lower(Trim(d.upstreamProtocol)) && c.antiDpi == d.antiDpi
            && Trim(c.customSni) == Trim(d.customSni)
  {
    hide Trim, Lower, Join, BoolText;
    BoolTexts();
    var p, q := SignatureParts(c), SignatureParts(d);
    JoinApart(p, q);
    assert p == q <==>
           (p[0] == q[0] && p[1] == q[1] && p[2] == q[2] && p[3] == q[3] && p[4] == q[4] && p[5] == q[5] &&
            p[6] == q[6] && p[7] == q[7] && p[8] == q[8]);
  }

  lemma FourJoined(a: string, b: string, x: string, y: string, rest: seq<string>)
    requires rest != []
    ensures Join([a, b, x, y] + rest, "|") == a + "|" + b + "|" + (x + "|" + y) + "|" + Join(rest, "|")
  {
    var three, two, one := [b, x, y] + rest, [x, y] + rest, [y] + rest;
    assert ([a, b, x, y] + rest)[1..] == three && three[1..] == two && two[1..] == one && one[1..] == rest;
    assert Join(one, "|") == y + "|" + Join(rest, "|");
    assert Join(two, "|") == x + "|" + Join(one, "|") == (x + "|" + y) + "|" + Join(rest, "|");
    assert Join(three, "|") == b + "|" + Join(two, "|");
    assert Join([a, b, x, y] + rest, "|") == a + "|" + Join(three, "|");
  }

  /** With separators inside, different users can share a signature, and then a changed password restarts nothing. */
  lemma SignaturesCollide(c: ClientConfig)
    ensures Signature(c.(username := "a|b", password := "c")) == Signature(c.(username := "a", password := "b|c"))
  {
    hide Lower, Join, BoolText;
    var x, y := c.(username := "a|b", password := "c"), c.(username := "a", password := "b|c");
    TrimOfTrimmed("a|b");
    TrimOfTrimmed("b|c");
    TrimOfTrimmed("a");
    TrimOfTrimmed("c");
    var p, q := SignatureParts(x), SignatureParts(y);
    var rest := p[4..];
    assert q[4..] == rest && p == [p[0], p[1], "a|b", "c"] + rest && q == [p[0], p[1], "a", "b|c"] + rest;
    FourJoined(p[0], p[1], "a|b", "c", rest);
    FourJoined(p[0], p[1], "a", "b|c", rest);
    assert "a|b" + "|" + "c" == "a" + "|" + "b|c";
  }

  datatype Call = SyncCall(outbounds: seq<Outbound>, fails: set<string>) | StopCall

  /** The manager after a run of syncs and stops. */
  ghost function After(calls: seq<Call>): State {
    if calls == [] then NEW_MANAGER else
      var s := After(calls[..|calls| - 1]);
      match calls[|calls| - 1]
      case SyncCall(outbounds, fails) => Sync(s, outbounds, fails).0
      case StopCall => DropUndesired(s, {})
  }

  /** The text is the signature of a configuration with which a process can be started. Fields may contain the
      separators, so a configuration that is not startable can share one. */
  ghost predicate OfStartable(signature: string) {
    exists c :: Startable(c) && Signature(c) == signature
  }

  ghost predicate AllOfStartable(s: State) {
    forall t :: t in s.processes ==> OfStartable(s.processes[t].signature)
  }

  lemma {:induction false} SyncTagsOfStartable(s: State, tags: seq<string>, desired: map<string, ClientConfig>,
      fails: set<string>)
    requires AllOfStartable(s) && forall t :: t in tags ==> t in desired
    ensures AllOfStartable(SyncTags(s, tags, desired, fails).0)
    decreases tags
  {
    if tags != [] {
      var s1 := SyncTag(s, tags[0], desired[tags[0]], fails).0;
      assert AllOfStartable(s1);
      SyncTagsOfStartable(s1, tags[1..], desired, fails);
    }
  }

  lemma SyncOfStartable(s: State, outbounds: seq<Outbound>, fails: set<string>)
    requires AllOfStartable(s)
    ensures AllOfStartable(Sync(s, outbounds, fails).0)
  {
    var desired := Desired(outbounds);
    ListedTags(desired);
    SyncTagsOfStartable(s, SortedStrings(desired.Keys), desired, fails);
  }

  lemma {:induction false} AlwaysOfStartable(calls: seq<Call>)
    ensures AllOfStartable(After(calls))
  {
    if calls != [] {
      var s, last := After(calls[..|calls| - 1]), calls[|calls| - 1];
      AlwaysOfStartable(calls[..|calls| - 1]);
      if last.SyncCall? {
        SyncOfStartable(s, last.outbounds, last.fails);
      }
    }
  }

  lemma {:induction false} DesiredTagsTrimmed(outbounds: seq<Outbound>)
    ensures forall t :: t in Desired(outbounds) ==> t != "" && Trim(t) == t
  {
    if outbounds != [] {
      DesiredTagsTrimmed(outbounds[..|outbounds| - 1]);
      TrimIdempotent(outbounds[|outbounds| - 1].tag);
    }
  }

  /** Outbounds that ask for the given clients. */
  ghost function Asking(tags: seq<string>, clients: map<string, ClientConfig>): seq<Outbound>
    requires forall t :: t in tags ==> t in clients
  {
    if tags == [] then [] else
      Asking(tags[..|tags| - 1], clients) + [Outbound(tags[|tags| - 1], true, Some(clients[tags[|tags| - 1]]), "")]
  }

  lemma {:induction false} AskedFor(tags: seq<string>, clients: map<string, ClientConfig>, t: string)
    requires forall t :: t in tags ==> t in clients && t != "" && Trim(t) == t
    ensures Get(Desired(Asking(tags, clients)), t) == if t in tags then Some(clients[t]) else None
  {
    if tags != [] {
      var front, last := tags[..|tags| - 1], tags[|tags| - 1];
      assert tags == front + [last];
      assert forall u :: u in front ==> u in tags;
      AskedFor(front, clients, t);
      var asked := Outbound(last, true, Some(clients[last]), "");
      assert (Asking(front, clients) + [asked])[..|Asking(front, clients)|] == Asking(front, clients);
    }
  }

  lemma DesiredOfAsking(clients: map<string, ClientConfig>)
    requires forall t :: t in clients ==> t != "" && Trim(t) == t
    ensures forall t :: t in SortedStrings(clients.Keys) ==> t in clients
    ensures Desired(Asking(SortedStrings(clients.Keys), clients)) == clients
  {
    var tags := SortedStrings(clients.Keys);
    ListedTags(clients);
    var asked := Desired(Asking(tags, clients));
    forall t ensures Get(asked, t) == Get(clients, t) {
      AskedFor(tags, clients, t);
    }
    SameMap(asked, clients);
  }

  ghost function StartableTwin(signature: string): (c: ClientConfig)
    requires OfStartable(signature)
    ensures Startable(c) && Signature(c) == signature
  {
    var c :| Startable(c) && Signature(c) == signature;
    c
  }

  /** Outbounds that a fresh manager can start and whose signatures are those of the given ones. */
  ghost function Asked(outbounds: seq<Outbound>): seq<Outbound>
    requires CouldRun(Desired(outbounds))
  {
    var twins := map t | t in Desired(outbounds) :: StartableTwin(Signature(Desired(outbounds)[t]));
    ListedTags(twins);
    Asking(SortedStrings(twins.Keys), twins)
  }

  /** Once they run, every desired tag is up to date. */
  lemma AskedStarts(outbounds: seq<Outbound>)
    requires CouldRun(Desired(outbounds))
    ensures var s := Sync(NEW_MANAGER, Asked(outbounds), {}).0;
            && AllSucceed(map[], Desired(Asked(outbounds)), {})
            && forall t :: t in Desired(outbounds) ==> UpToDate(s.processes, t, Desired(outbounds)[t])
  {
    var desired := Desired(outbounds);
    var twins := map t | t in desired :: StartableTwin(Signature(desired[t]));
    DesiredTagsTrimmed(outbounds);
    DesiredOfAsking(twins);
    SyncSucceedsExactly(NEW_MANAGER, Asked(outbounds), {});
    SyncConverges(NEW_MANAGER, Asked(outbounds), {});
    forall t | t in desired ensures UpToDate(Sync(NEW_MANAGER, Asked(outbounds), {}).0.processes, t, desired[t]) {
      assert t in twins && Signature(twins[t]) == Signature(desired[t]);
    }
  }

  /** A run after which every desired tag is up to date, if each could ever be. */
  lemma RunningAlready(outbounds: seq<Outbound>) returns (calls: seq<Call>)
    requires CouldRun(Desired(outbounds))
    ensures forall t :: t in Desired(outbounds) ==> UpToDate(After(calls).processes, t, Desired(outbounds)[t])
  {
    calls := [SyncCall(Asked(outbounds), {})];
    assert calls[..0] == [] && After([]) == NEW_MANAGER;
    AskedStarts(outbounds);
  }

  predicate FreshSucceeds(desired: map<string, ClientConfig>, fails: set<string>) {
    forall t :: t in desired ==> Startable(desired[t]) && t !in fails
  }

  /** Some manager might have matching processes for all of them. */
  ghost predicate CouldRun(desired: map<string, ClientConfig>) {
    forall t :: t in desired ==> OfStartable(Signature(desired[t]))
  }

  lemma OutcomeBounds(s: State, desired: map<string, ClientConfig>, fails: set<string>)
    requires AllOfStartable(s)
    ensures AllSucceed(s.processes, desired, fails) ==> CouldRun(desired)
    ensures FreshSucceeds(desired, fails) ==> AllSucceed(s.processes, desired, fails)
  {
    if AllSucceed(s.processes, desired, fails) {
      forall t | t in desired ensures OfStartable(Signature(desired[t])) {
        assert TagSucceeds(s.processes, t, desired[t], fails);
      }
    }
  }

  lemma RunOutcome(calls: seq<Call>, outbounds: seq<Outbound>, fails: set<string>)
    ensures Sync(After(calls), outbounds, fails).1 <==> AllSucceed(After(calls).processes, Desired(outbounds), fails)
    ensures Sync(After(calls), outbounds, fails).1 ==> CouldRun(Desired(outbounds))
    ensures FreshSucceeds(Desired(outbounds), fails) ==> Sync(After(calls), outbounds, fails).1
  {
    var s, desired := After(calls), Desired(outbounds);
    AlwaysOfStartable(calls);
    SyncSucceedsExactly(s, outbounds, fails);
    OutcomeBounds(s, desired, fails);
  }

  lemma FreshProcesses(desired: map<string, ClientConfig>, fails: set<string>)
    ensures AllSucceed(map[], desired, fails) <==> FreshSucceeds(desired, fails)
  {
  }

  lemma FreshOutcome(outbounds: seq<Outbound>, fails: set<string>)
    ensures Sync(NEW_MANAGER, outbounds, fails).1 <==> FreshSucceeds(Desired(outbounds), fails)
  {
    SyncSucceedsExactly(NEW_MANAGER, outbounds, fails);
    FreshProcesses(Desired(outbounds), fails);
  }

  /** Whether a sync succeeds does not depend on what ran before, exactly if a fresh manager could start
      every desired process, or some desired signature is one that no process can ever have. */
  lemma OutcomeIndependentOfHistory(outbounds: seq<Outbound>, fails: set<string>)
    ensures (forall calls :: Sync(After(calls), outbounds, fails).1 <==> Sync(NEW_MANAGER, outbounds, fails).1)
            <==> FreshSucceeds(Desired(outbounds), fails) || !CouldRun(Desired(outbounds))
  {
    FreshOutcome(outbounds, fails);
    if FreshSucceeds(Desired(outbounds), fails) || !CouldRun(Desired(outbounds)) {
      forall calls ensures Sync(After(calls), outbounds, fails).1 <==> Sync(NEW_MANAGER, outbounds, fails).1 {
        RunOutcome(calls, outbounds, fails);
      }
    } else {
      var calls := SucceedsSomewhere(outbounds, fails);
      assert Sync(After(calls), outbounds, fails).1 && !Sync(NEW_MANAGER, outbounds, fails).1;
    }
  }

  lemma SucceedsSomewhere(outbounds: seq<Outbound>, fails: set<string>) returns (calls: seq<Call>)
    requires CouldRun(Desired(outbounds))
    ensures Sync(After(calls), outbounds, fails).1
  {
    calls := RunningAlready(outbounds);
    RunOutcome(calls, outbounds, fails);
  }

  // ---------- the operations ----------

  class Manager {
    var processes: map<string, Process>
    // The world: how many processes were ever started, and which still run.
    var started: nat
    var running: set<nat>

    ghost function View(): State
      reads this
    {
      State(processes, started, running)
    }

    constructor ()
      ensures View() == NEW_MANAGER && Tracked(View())
    {
      processes, started, running := map[], 0, {};
    }

    method CollectDesired(outbounds: seq<Outbound>) returns (desired: map<string, ClientConfig>)
      ensures desired == Desired(outbounds)
    {
      desired := map[];
      for i := 0 to |outbounds|
        invariant desired == Desired(outbounds[..i])
      {
        var out := outbounds[i];
        assert outbounds[..i + 1][..i] == outbounds[..i];
        if !out.isTrustTunnel {
          continue;
        }
        var tag := Trim(out.tag);
        if tag == "" || out.client == None {
          continue;
        }
        desired := desired[tag := out.client.value];
      }
      assert outbounds[..|outbounds|] == outbounds;
    }

    /** The body of the loop of sync. */
    method SyncOne(tag: string, cfg: ClientConfig, fails: set<string>) returns (ok: bool)
      modifies this
      ensures (View(), ok) == SyncTag(old(View()), tag, cfg, fails)
    {
      var sig := Signature(cfg);
      if tag in processes && processes[tag].signature == sig {
        return true;
      }
      if !Startable(cfg) || tag in fails {
        return false;
      }
      var process := Process(started, sig);
      started, running := started + 1, running + {started};
      if tag in processes {
        running := running - {processes[tag].id};
      }
      processes := processes[tag := process];
      ok := true;
    }

    /** sync. */
    method SyncOutbounds(outbounds: seq<Outbound>, fails: set<string>) returns (ok: bool)
      modifies this
      ensures (View(), ok) == Sync(old(View()), outbounds, fails)
      ensures ok ==> Reflects(processes, outbounds)
      ensures old(Tracked(View())) ==> Tracked(View())
    {
      if Tracked(View()) {
        SyncTracked(View(), outbounds, fails);
      }
      SyncReflects(View(), outbounds, fails);
      var desired := CollectDesired(outbounds);
      var tags := SortStrings(desired.Keys);
      assert Elements(tags) == desired.Keys;
      ghost var start := View();
      var i := 0;
      while i < |tags|
        invariant 0 <= i <= |tags|
        invariant forall t :: t in tags[i..] ==> t in desired
        invariant SyncTags(start, tags, desired, fails) == SyncTags(View(), tags[i..], desired, fails)
      {
        var tag := tags[i];
        assert tags[i..][0] == tag && tags[i..][1..] == tags[i + 1..];
        assert forall t :: t in tags[i + 1..] ==> t in tags[i..];
        i := i + 1;
        var synced := SyncOne(tag, desired[tag], fails);
        if !synced {
          return false;
        }
      }
      DropOthers(desired.Keys);
      ok := true;
    }

    /** The final loop of sync; with nothing desired it is stopAll. The map is visited in an arbitrary order. */
    method DropOthers(desired: set<string>)
      modifies this
      ensures View() == DropUndesired(old(View()), desired)
    {
      ghost var s := View();
      var gone, rest := {}, processes.Keys;
      DropNone(s);
      while rest != {}
        invariant rest <= s.processes.Keys && rest !! gone
        invariant gone == s.processes.Keys - rest - desired
        invariant View() == Drop(s, gone)
        decreases rest
      {
        var tag := AnyOf(rest);
        rest := rest - {tag};
        if tag !in desired {
          DropOneMore(s, gone, tag);
          running := running - {processes[tag].id};
          processes := processes - {tag};
          gone := gone + {tag};
        }
      }
    }

    method StopAll()
      modifies this
      ensures processes == map[] && (old(Tracked(View())) ==> running == {})
    {
      ghost var s := View();
      DropOthers({});
      if Tracked(s) {
        DropTracked(s, {});
      }
    }
  }

  lemma DropNone(s: State)
    ensures Drop(s, {}) == s
  {
    forall id ensures id in Drop(s, {}).running <==> id in s.running {
    }
  }

  lemma DropOneMore(s: State, gone: set<string>, tag: string)
    requires tag in s.processes && tag !in gone
    ensures tag in Drop(s, gone).processes && Drop(s, gone).processes[tag] == s.processes[tag]
    ensures Drop(s, gone + {tag}) ==
              State(Drop(s, gone).processes - {tag}, s.started, Drop(s, gone).running - {s.processes[tag].id})
  {
    var a, b := set t | t in s.processes && t in gone :: s.processes[t].id,
      set t | t in s.processes && t in gone + {tag} :: s.processes[t].id;
    assert b == a + {s.processes[tag].id};
  }
}
