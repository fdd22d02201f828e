/** The routing part of node/internal/engine/xray.go: source rules become Xray rules, unknown outbound
    tags are redirected to `direct`, and an API rule is put in front. */
module Routing {
  import opened Common

  /** What a rule can ask about a connection. */
  datatype Field = InboundTag | Domain | Ip | Port | Network | Protocol | User

  /** A connection, known by the atomic conditions it satisfies. */
  type Connection = (Field, string) -> bool

  datatype Rule = Rule(outboundTag: string, inboundTag: seq<string>, domain: seq<string>, ip: seq<string>,
                       port: seq<string>, transport: seq<string>, protocol: seq<string>, user: seq<string>)

  /** A rule as Xray reads it; an absent field is no condition. */
  datatype XrayRule = XrayRule(outboundTag: string, inboundTag: Option<seq<string>>, domain: Option<seq<string>>,
                               ip: Option<seq<string>>, port: Option<seq<string>>, network: Option<string>,
                               protocol: Option<seq<string>>)

  /** `Emitting` outbounds become a handler, `Skipped` ones (incomplete or unsupported) do not, and a custom
      outbound is registered after the instance is built when it names a handler. */
  datatype Kind = Emitting | Skipped | Custom(handlerName: string)
  datatype Outbound = Outbound(tag: string, kind: Kind)

  // ---------- text ----------

  /** strings.Split(s, ","). */
  function Split(s: string): (parts: seq<string>)
    ensures parts != []
  {
    if s == "" then [""] else
      var rest := Split(s[1..]);
      if s[0] == ',' then [""] + rest else [[s[0]] + rest[0]] + rest[1..]
  }

  /** strings.Join(tokens, ","). */
  function Join(tokens: seq<string>): string {
    if tokens == [] then "" else if |tokens| == 1 then tokens[0] else tokens[0] + "," + Join(tokens[1..])
  }

  predicate IsTransport(token: string) {
    token == "tcp" || token == "udp"
  }

  lemma {:induction false} SplitWord(w: string, tail: string)
    requires ',' !in w
    ensures Split(w) == [w]
    ensures Split(w + "," + tail) == [w] + Split(tail)
  {
    if w == "" {
      assert w + "," + tail == "," + tail;
      assert ("," + tail)[1..] == tail;
    } else {
      assert (w + "," + tail)[1..] == w[1..] + "," + tail;
      SplitWord(w[1..], tail);
      assert w == [w[0]] + w[1..];
    }
  }

  /** Xray splits the joined network list back into the same tokens. */
  lemma {:induction false} SplitJoin(tokens: seq<string>)
    requires tokens != [] && forall t :: t in tokens ==> ',' !in t
    ensures Split(Join(tokens)) == tokens
  {
    if |tokens| == 1 {
      SplitWord(tokens[0], "");
    } else {
      SplitWord(tokens[0], Join(tokens[1..]));
      SplitJoin(tokens[1..]);
    }
  }

  // ---------- what is emitted ----------

  function Values(values: seq<string>): seq<string> {
    if values == [] then [] else
      var v := Trim(values[|values| - 1]);
      Values(values[..|values| - 1]) + if v == "" then [] else [v]
  }

  /** The transports of the parts of one value, appended to those seen so far. */
  function AddTransports(found: seq<string>, parts: seq<string>): seq<string> {
    if parts == [] then found else
      var before := AddTransports(found, parts[..|parts| - 1]);
      var token := Lower(Trim(parts[|parts| - 1]));
      if IsTransport(token) && token !in before then before + [token] else before
  }

  function TransportsOf(normalized: seq<string>): seq<string> {
    if normalized == [] then [] else
      AddTransports(TransportsOf(normalized[..|normalized| - 1]), Split(normalized[|normalized| - 1]))
  }

  function Transports(values: seq<string>): seq<string> {
    TransportsOf(Values(values))
  }

  predicate HasMatchers(r: Rule) {
    Values(r.domain) != [] || Values(r.inboundTag) != [] || Values(r.ip) != [] || Values(r.port) != [] ||
    Transports(r.transport) != [] || Values(r.protocol) != []
  }

  predicate Usable(r: Rule) {
    Trim(r.outboundTag) != "" && HasMatchers(r)
  }

  function Present(values: seq<string>): Option<seq<string>> {
    if Values(values) == [] then None else Some(Values(values))
  }

  function Emit(r: Rule): XrayRule {
    XrayRule(Trim(r.outboundTag), Present(r.inboundTag), Present(r.domain), Present(r.ip), Present(r.port),
             if Transports(r.transport) == [] then None else Some(Join(Transports(r.transport))), Present(r.protocol))
  }

  function EmitAll(rules: seq<Rule>): seq<XrayRule> {
    if rules == [] then [] else
      var r := rules[|rules| - 1];
      EmitAll(rules[..|rules| - 1]) + if Usable(r) then [Emit(r)] else []
  }

  /** Unknown outbound tags are read as `direct`. */
  function Resolve(tag: string, allowed: set<string>): string {
    if Trim(tag) in allowed then Trim(tag) else "direct"
  }

  function Redirect(r: Rule, allowed: set<string>): Rule {
    if Trim(r.outboundTag) in allowed then r else r.(outboundTag := "direct")
  }

  function Redirected(rules: seq<Rule>, allowed: set<string>): seq<Rule> {
    if rules == [] then [] else
      var r := rules[|rules| - 1];
      Redirected(rules[..|rules| - 1], allowed) + if Trim(r.outboundTag) == "" then [] else [Redirect(r, allowed)]
  }

  const API_RULE: XrayRule := XrayRule("api", Some(["api-in"]), None, None, None, None, None)

  /** The rule list handed to the router. */
  function RuleList(rules: seq<Rule>, allowed: set<string>): seq<XrayRule> {
    [API_RULE] + EmitAll(Redirected(rules, allowed))
  }

  // ---------- what a rule means ----------

  /** Xray's reading of one list: absent, or one entry holds. */
  ghost predicate Holds(values: Option<seq<string>>, field: Field, c: Connection) {
    values.None? || exists v :: v in values.value && c(field, v)
  }

  ghost predicate XrayMatches(r: XrayRule, c: Connection) {
    && Holds(r.inboundTag, InboundTag, c)
    && Holds(r.domain, Domain, c)
    && Holds(r.ip, Ip, c)
    && Holds(r.port, Port, c)
    && Holds(if r.network.None? then None else Some(Split(r.network.value)), Network, c)
    && Holds(r.protocol, Protocol, c)
  }

  /** The intended reading of a source list: blanks do not count, an all-blank list is no condition. */
  ghost predicate Asks(values: seq<string>, field: Field, c: Connection) {
    (exists v :: v in values && Trim(v) != "") ==> exists v :: v in values && Trim(v) != "" && c(field, Trim(v))
  }

  /** A transport is mentioned by some comma-separated part of some value, in any case. */
  ghost predicate Mentions(values: seq<string>, token: string) {
    (token == "tcp" || token == "udp") &&
    exists v, part :: v in values && part in Split(Trim(v)) && Lower(Trim(part)) == token
  }

  ghost predicate AsksTransport(values: seq<string>, c: Connection) {
    (exists t :: Mentions(values, t)) ==> exists t :: Mentions(values, t) && c(Network, t)
  }

  ghost predicate SourceMatches(r: Rule, c: Connection) {
    && Asks(r.inboundTag, InboundTag, c)
    && Asks(r.domain, Domain, c)
    && Asks(r.ip, Ip, c)
    && Asks(r.port, Port, c)
    && AsksTransport(r.transport, c)
    && Asks(r.protocol, Protocol, c)
  }

  ghost predicate Filled(values: seq<string>) {
    exists v :: v in values && Trim(v) != ""
  }

  /** A rule counts if it has a tag, and a domain, inbound tag, address, port or protocol that is not blank, or asks for
      tcp or udp. */
  ghost predicate Counts(r: Rule) {
    Trim(r.outboundTag) != "" &&
    (Filled(r.domain) || Filled(r.inboundTag) || Filled(r.ip) || Filled(r.port) || Filled(r.protocol) ||
     Mentions(r.transport, "tcp") || Mentions(r.transport, "udp"))
  }

  /** First match over the source rules that count; a tag that is not allowed stands for `direct`. */
  ghost function FirstSource(rules: seq<Rule>, allowed: set<string>, c: Connection): Option<string> {
    if rules == [] then None
    else if Counts(rules[0]) && SourceMatches(rules[0], c) then
      Some(if Trim(rules[0].outboundTag) in allowed then Trim(rules[0].outboundTag) else "direct")
    else FirstSource(rules[1..], allowed, c)
  }

  ghost function FirstXray(rules: seq<XrayRule>, c: Connection): Option<string> {
    if rules == [] then None
    else if XrayMatches(rules[0], c) then Some(rules[0].outboundTag)
    else FirstXray(rules[1..], c)
  }

  lemma {:induction false} ValuesMeaning(values: seq<string>, v: string)
    ensures v in Values(values) <==> exists x :: x in values && Trim(x) != "" && Trim(x) == v
  {
    if values != [] {
      var front, last := values[..|values| - 1], values[|values| - 1];
      ValuesMeaning(front, v);
      assert values == front + [last];
    }
  }

  lemma ValuesFilled(values: seq<string>)
    ensures Values(values) != [] <==> Filled(values)
  {
    if Values(values) != [] {
      ValuesMeaning(values, Values(values)[0]);
    }
    if v :| v in values && Trim(v) != "" {
      ValuesMeaning(values, Trim(v));
    }
  }

  lemma TransportsFilled(values: seq<string>)
    ensures Transports(values) != [] <==> Mentions(values, "tcp") || Mentions(values, "udp")
  {
    TransportsMeaning(values, "tcp");
    TransportsMeaning(values, "udp");
    if Transports(values) != [] {
      assert Transports(values)[0] in Transports(values);
    }
  }

  /** A rule is emitted exactly if it counts. */
  lemma UsableExactly(r: Rule)
    ensures Usable(r) <==> Counts(r)
  {
    hide Filled, Mentions, Values, Transports;
    ValuesFilled(r.domain);
    ValuesFilled(r.inboundTag);
    ValuesFilled(r.ip);
    ValuesFilled(r.port);
    ValuesFilled(r.protocol);
    TransportsFilled(r.transport);
  }

  lemma PresentMeaning(values: seq<string>, field: Field, c: Connection)
    ensures Holds(Present(values), field, c) <==> Asks(values, field, c)
  {
    if Values(values) == [] {
      forall v | v in values ensures Trim(v) == "" {
        ValuesMeaning(values, Trim(v));
      }
    } else {
      ValuesMeaning(values, Values(values)[0]);
      if v :| v in Values(values) && c(field, v) {
        ValuesMeaning(values, v);
      }
      if x :| x in values && Trim(x) != "" && c(field, Trim(x)) {
        ValuesMeaning(values, Trim(x));
      }
    }
  }

  ghost predicate NoneTwice(s: seq<string>) {
    forall i, j :: 0 <= i < j < |s| ==> s[i] != s[j]
  }

  ghost predicate PartSays(parts: seq<string>, t: string) {
    exists p :: p in parts && Lower(Trim(p)) == t
  }

  lemma {:induction false} AddTransportsMeaning(found: seq<string>, parts: seq<string>, t: string)
    requires forall x :: x in found ==> IsTransport(x)
    ensures t in AddTransports(found, parts) <==> t in found || (IsTransport(t) && PartSays(parts, t))
    ensures forall x :: x in AddTransports(found, parts) ==> IsTransport(x)
    ensures NoneTwice(found) ==> NoneTwice(AddTransports(found, parts))
  {
    if parts != [] {
      var front, last := parts[..|parts| - 1], parts[|parts| - 1];
      AddTransportsMeaning(found, front, t);
      assert parts == front + [last];
      assert PartSays(parts, t) <==> PartSays(front, t) || Lower(Trim(last)) == t;
    }
  }

  ghost predicate ValueSays(values: seq<string>, t: string) {
    exists v :: v in values && PartSays(Split(v), t)
  }

  lemma {:induction false} TransportsOfMeaning(normalized: seq<string>, t: string)
    ensures t in TransportsOf(normalized) <==> IsTransport(t) && ValueSays(normalized, t)
    ensures forall x :: x in TransportsOf(normalized) ==> IsTransport(x)
    ensures NoneTwice(TransportsOf(normalized))
  {
    if normalized != [] {
      var front, last := normalized[..|normalized| - 1], normalized[|normalized| - 1];
      TransportsOfMeaning(front, t);
      AddTransportsMeaning(TransportsOf(front), Split(last), t);
      assert normalized == front + [last];
      assert ValueSays(normalized, t) <==> ValueSays(front, t) || PartSays(Split(last), t);
    }
  }

  /** The transports of a list are those that it mentions, each once. */
  lemma TransportsMeaning(values: seq<string>, t: string)
    ensures t in Transports(values) <==> Mentions(values, t)
    ensures forall x :: x in Transports(values) ==> IsTransport(x)
    ensures NoneTwice(Transports(values))
  {
    TransportsOfMeaning(Values(values), t);
    if t in Transports(values) {
      var v :| v in Values(values) && PartSays(Split(v), t);
      var p :| p in Split(v) && Lower(Trim(p)) == t;
      ValuesMeaning(values, v);
      var x :| x in values && Trim(x) == v;
      assert p in Split(Trim(x));
    }
    if Mentions(values, t) {
      MentionedIsKept(values, t);
    }
  }

  lemma MentionedIsKept(values: seq<string>, t: string)
    requires Mentions(values, t)
    ensures ValueSays(Values(values), t)
  {
    var v, part :| v in values && part in Split(Trim(v)) && Lower(Trim(part)) == t;
    assert PartSays(Split(Trim(v)), t);
    assert Split("") == [""] && Lower(Trim("")) == "";
    ValuesMeaning(values, Trim(v));
    assert Trim(v) in Values(values);
  }

  lemma NetworkMeaning(values: seq<string>, c: Connection)
    ensures Holds(if Transports(values) == [] then None else Some(Split(Join(Transports(values)))), Network, c) <==>
              AsksTransport(values, c)
  {
    var tokens := Transports(values);
    forall t ensures t in tokens <==> Mentions(values, t) {
      TransportsMeaning(values, t);
    }
    if tokens != [] {
      TransportsMeaning(values, "");
      assert tokens[0] in tokens;
      forall t | t in tokens ensures ',' !in t {
      }
      SplitJoin(tokens);
    }
  }

  /** An emitted rule matches exactly the connections that its source rule describes. */
  lemma EmitKeepsMeaning(r: Rule, c: Connection)
    ensures XrayMatches(Emit(r), c) <==> SourceMatches(r, c)
  {
    PresentMeaning(r.inboundTag, InboundTag, c);
    PresentMeaning(r.domain, Domain, c);
    PresentMeaning(r.ip, Ip, c);
    PresentMeaning(r.port, Port, c);
    PresentMeaning(r.protocol, Protocol, c);
    NetworkMeaning(r.transport, c);
  }

  lemma {:induction false} FirstXrayAppends(a: seq<XrayRule>, b: seq<XrayRule>, c: Connection)
    ensures FirstXray(a + b, c) == if FirstXray(a, c).Some? then FirstXray(a, c) else FirstXray(b, c)
  {
    if a == [] {
      assert a + b == b;
    } else {
      assert (a + b)[1..] == a[1..] + b;
      FirstXrayAppends(a[1..], b, c);
    }
  }

  lemma {:induction false} FirstSourceAppends(a: seq<Rule>, b: seq<Rule>, allowed: set<string>, c: Connection)
    ensures FirstSource(a + b, allowed, c) == if FirstSource(a, allowed, c).Some? then FirstSource(a, allowed, c)
              else FirstSource(b, allowed, c)
  {
    if a == [] {
      assert a + b == b;
    } else {
      assert (a + b)[1..] == a[1..] + b;
      FirstSourceAppends(a[1..], b, allowed, c);
    }
  }

  lemma EmitAllAppends(rules: seq<Rule>, r: Rule)
    ensures EmitAll(rules + [r]) == EmitAll(rules) + if Usable(r) then [Emit(r)] else []
  {
    assert (rules + [r])[..|rules|] == rules;
  }

  function EmittedFor(r: Rule, allowed: set<string>): seq<XrayRule> {
    if Usable(r) then [Emit(Redirect(r, allowed))] else []
  }

  lemma RedirectOne(rules: seq<Rule>, allowed: set<string>)
    requires rules != []
    ensures EmitAll(Redirected(rules, allowed))
         == EmitAll(Redirected(rules[..|rules| - 1], allowed)) + EmittedFor(rules[|rules| - 1], allowed)
  {
    var front, last := rules[..|rules| - 1], rules[|rules| - 1];
    assert Trim("direct") == "direct";
    if Trim(last.outboundTag) != "" {
      EmitAllAppends(Redirected(front, allowed), Redirect(last, allowed));
      assert Usable(Redirect(last, allowed)) == Usable(last);
    } else {
      assert Redirected(rules, allowed) == Redirected(front, allowed);
    }
  }

  lemma OneRule(r: Rule, allowed: set<string>, c: Connection)
    ensures FirstXray(EmittedFor(r, allowed), c) == FirstSource([r], allowed, c)
  {
    assert Trim("direct") == "direct";
    assert [r][1..] == [];
    EmitKeepsMeaning(Redirect(r, allowed), c);
    assert SourceMatches(Redirect(r, allowed), c) == SourceMatches(r, c);
    UsableExactly(r);
    if Usable(r) {
      assert EmittedFor(r, allowed)[1..] == [];
    }
  }

  lemma {:induction false} EmittedFirstMatch(rules: seq<Rule>, allowed: set<string>, c: Connection)
    ensures FirstXray(EmitAll(Redirected(rules, allowed)), c) == FirstSource(rules, allowed, c)
  {
    if rules != [] {
      var front, last := rules[..|rules| - 1], rules[|rules| - 1];
      assert rules == front + [last];
      EmittedFirstMatch(front, allowed, c);
      FirstSourceAppends(front, [last], allowed, c);
      RedirectOne(rules, allowed);
      OneRule(last, allowed, c);
      FirstXrayAppends(EmitAll(Redirected(front, allowed)), EmittedFor(last, allowed), c);
    }
  }

  /** Routing keeps its meaning: for every connection that does not come from the API inbound, the first
      match over the emitted list is the first match over the source rules. */
  lemma RoutingKeepsMeaning(rules: seq<Rule>, allowed: set<string>, c: Connection)
    requires !c(InboundTag, "api-in")
    ensures FirstXray(RuleList(rules, allowed), c) == FirstSource(rules, allowed, c)
  {
    var rest := EmitAll(Redirected(rules, allowed));
    assert RuleList(rules, allowed)[0] == API_RULE && RuleList(rules, allowed)[1..] == rest;
    assert forall v :: v in ["api-in"] ==> v == "api-in";
    EmittedFirstMatch(rules, allowed, c);
  }

  /** Connections from the API inbound go to the API whatever the rules say. */
  lemma ApiComesFirst(rules: seq<Rule>, allowed: set<string>, c: Connection)
    requires c(InboundTag, "api-in")
    ensures FirstXray(RuleList(rules, allowed), c) == Some("api")
  {
    assert RuleList(rules, allowed)[0] == API_RULE;
    assert "api-in" in API_RULE.inboundTag.value;
  }

  // ---------- the matcher that is not modelled ----------

  /** The full description of a rule, users included. */
  ghost predicate FullyMatches(r: Rule, c: Connection) {
    SourceMatches(r, c) && Asks(r.user, User, c)
  }

  /** The emitted rule keeps the full description exactly when the rule names no users: the user list of a
      rule is never emitted, so a rule that also names users matches everybody's connections. */
  lemma UsersAreDropped(r: Rule)
    ensures (forall c: Connection :: XrayMatches(Emit(r), c) <==> FullyMatches(r, c)) <==>
              (forall u :: u in r.user ==> Trim(u) == "")
  {
    hide XrayMatches, FullyMatches, Emit;
    if u :| u in r.user && Trim(u) != "" {
      var everybody: Connection := (f: Field, v: string) => f != User;
      DroppedUser(r, u, everybody);
    } else {
      forall c: Connection ensures XrayMatches(Emit(r), c) <==> FullyMatches(r, c) {
        NoUserDropped(r, c);
      }
    }
  }

  lemma NoUserDropped(r: Rule, c: Connection)
    requires forall u :: u in r.user ==> Trim(u) == ""
    ensures XrayMatches(Emit(r), c) <==> FullyMatches(r, c)
  {
    EmitKeepsMeaning(r, c);
  }

  lemma DroppedUser(r: Rule, u: string, c: Connection)
    requires u in r.user && Trim(u) != "" && forall f: Field, v: string :: c(f, v) <==> f != User
    ensures XrayMatches(Emit(r), c) && !FullyMatches(r, c)
  {
    EmitKeepsMeaning(r, c);
    MatchesEverybody(r, c);
    assert !Asks(r.user, User, c);
  }

  lemma MatchesEverybody(r: Rule, c: Connection)
    requires forall f: Field, v: string :: f != User ==> c(f, v)
    ensures SourceMatches(r, c)
  {
  }

  // ---------- every tag names a handler ----------

  function EmittedTags(outbounds: seq<Outbound>): set<string> {
    set o | o in outbounds && Trim(o.tag) != "" && o.kind.Emitting? :: Trim(o.tag)
  }

  function CustomTags(outbounds: seq<Outbound>): set<string> {
    set o | o in outbounds && Trim(o.tag) != "" && o.kind.Custom? && Trim(o.kind.handlerName) != "" :: Trim(o.tag)
  }

  function Allowed(outbounds: seq<Outbound>, reverseTags: set<string>): set<string> {
    reverseTags + EmittedTags(outbounds) + CustomTags(outbounds)
  }

  /** The tags the running instance can send traffic to. */
  function Handlers(outbounds: seq<Outbound>, reverseTags: set<string>): set<string> {
    Allowed(outbounds, reverseTags) + {"api"} + if EmittedTags(outbounds) == {} then {"direct"} else {}
  }

  ghost predicate HasHandler(outbounds: seq<Outbound>, t: string) {
    t != "" && exists o :: o in outbounds && Trim(o.tag) == t &&
                           (o.kind.Emitting? || (o.kind.Custom? && Trim(o.kind.handlerName) != ""))
  }

  /** A tag is allowed if it is a reverse tag, or trimmed that of an outbound that becomes a handler, now or later. The
      instance has handlers for these, for the API, and for `direct` if it would have none otherwise. */
  lemma HandlersMeaning(outbounds: seq<Outbound>, reverseTags: set<string>)
    ensures forall t :: t in Allowed(outbounds, reverseTags) <==> (t in reverseTags || HasHandler(outbounds, t))
    ensures forall t :: t in Handlers(outbounds, reverseTags) <==>
              t in Allowed(outbounds, reverseTags) || t == "api" ||
                (t == "direct" && forall o :: o in outbounds && Trim(o.tag) != "" ==> !o.kind.Emitting?)
    ensures EmittedTags(outbounds) == {} <==> forall o :: o in outbounds && Trim(o.tag) != "" ==> !o.kind.Emitting?
  {
    hide Trim;
    forall t ensures t in Allowed(outbounds, reverseTags) <==> (t in reverseTags || HasHandler(outbounds, t)) {
      if HasHandler(outbounds, t) {
        assert t in EmittedTags(outbounds) + CustomTags(outbounds);
      }
    }
    forall o | o in outbounds && Trim(o.tag) != "" && o.kind.Emitting? ensures EmittedTags(outbounds) != {} {
      assert Trim(o.tag) in EmittedTags(outbounds);
    }
  }

  lemma RedirectTag(r: Rule, allowed: set<string>)
    requires Trim(r.outboundTag) != ""
    ensures Emit(Redirect(r, allowed)).outboundTag == Resolve(r.outboundTag, allowed)
  {
    assert Trim("direct") == "direct";
  }

  lemma {:induction false} EmittedTag(rules: seq<Rule>, allowed: set<string>, x: XrayRule) returns (r: Rule)
    requires x in EmitAll(Redirected(rules, allowed))
    ensures r in rules && Usable(r) && Resolve(r.outboundTag, allowed) == x.outboundTag
  {
    RedirectOne(rules, allowed);
    r := rules[|rules| - 1];
    if x in EmitAll(Redirected(rules[..|rules| - 1], allowed)) {
      r := EmittedTag(rules[..|rules| - 1], allowed, x);
    } else {
      RedirectTag(r, allowed);
    }
  }

  lemma {:induction false} RuleIsEmitted(rules: seq<Rule>, allowed: set<string>, r: Rule)
    requires r in rules && Usable(r)
    ensures Emit(Redirect(r, allowed)) in EmitAll(Redirected(rules, allowed))
    ensures Emit(Redirect(r, allowed)).outboundTag == Resolve(r.outboundTag, allowed)
  {
    RedirectTag(r, allowed);
    RedirectOne(rules, allowed);
    if r != rules[|rules| - 1] {
      RuleIsEmitted(rules[..|rules| - 1], allowed, r);
    }
  }

  /** Every emitted tag names a handler exactly when no usable rule has an unknown tag, or `direct` is a
      handler: because such an outbound is emitted, or because none is and the default one steps in. */
  lemma EveryTagHandled(rules: seq<Rule>, outbounds: seq<Outbound>, reverseTags: set<string>)
    ensures var allowed := Allowed(outbounds, reverseTags);
            (forall x :: x in RuleList(rules, allowed) ==> x.outboundTag in Handlers(outbounds, reverseTags))
            <==> (forall r :: r in rules && Counts(r) ==> Trim(r.outboundTag) in allowed)
                 || "direct" in allowed || forall o :: o in outbounds && Trim(o.tag) != "" ==> !o.kind.Emitting?
  {
    hide Counts, Values, Transports;
    forall r: Rule ensures Usable(r) <==> Counts(r) {
      UsableExactly(r);
    }
    HandlersMeaning(outbounds, reverseTags);
    var allowed, handlers := Allowed(outbounds, reverseTags), Handlers(outbounds, reverseTags);
    var list, rest := RuleList(rules, allowed), EmitAll(Redirected(rules, allowed));
    assert forall x :: x in list <==> x == API_RULE || x in rest;
    forall r | r in rules && Usable(r)
      ensures exists x :: x in list && x.outboundTag == Resolve(r.outboundTag, allowed)
    {
      RuleIsEmitted(rules, allowed, r);
    }
    forall x | x in rest
      ensures exists r :: r in rules && Usable(r) && Resolve(r.outboundTag, allowed) == x.outboundTag
    {
      var r := EmittedTag(rules, allowed, x);
    }
  }

  // ---------- the operations ----------

  /** normalizedXrayRuleValues. */
  method NormalizeValues(values: seq<string>) returns (normalized: seq<string>)
    ensures normalized == Values(values)
  {
    normalized := [];
    for i := 0 to |values|
      invariant normalized == Values(values[..i])
    {
      assert values[..i + 1][..i] == values[..i];
      var value := Trim(values[i]);
      if value == "" {
        continue;
      }
      normalized := normalized + [value];
    }
    assert values[..|values|] == values;
  }

  /** normalizedXrayRuleTransports. */
  method NormalizeTransports(values: seq<string>) returns (transports: seq<string>)
    ensures transports == Transports(values)
  {
    var normalized := NormalizeValues(values);
    transports := [];
    for i := 0 to |normalized|
      invariant transports == TransportsOf(normalized[..i])
    {
      assert normalized[..i + 1][..i] == normalized[..i];
      var parts := Split(normalized[i]);
      ghost var found := transports;
      for j := 0 to |parts|
        invariant transports == AddTransports(found, parts[..j])
      {
        assert parts[..j + 1][..j] == parts[..j];
        var token := Lower(Trim(parts[j]));
        if token != "tcp" && token != "udp" {
          continue;
        }
        if token in transports {
          continue;
        }
        transports := transports + [token];
      }
      assert parts[..|parts|] == parts;
    }
    assert normalized[..|normalized|] == normalized;
  }

  method Convert(r: Rule) returns (emitted: Option<XrayRule>)
    ensures emitted == if Usable(r) then Some(Emit(r)) else None
  {
    var inbound := NormalizeValues(r.inboundTag);
    var domain := NormalizeValues(r.domain);
    var ip := NormalizeValues(r.ip);
    var network := NormalizeTransports(r.transport);
    var protocol := NormalizeValues(r.protocol);
    var port := NormalizeValues(r.port);
    if Trim(r.outboundTag) == "" ||
       (|domain| == 0 && |inbound| == 0 && |ip| == 0 && |port| == 0 && |network| == 0 && |protocol| == 0) {
      return None;
    }
    var raw := XrayRule(Trim(r.outboundTag), None, None, None, None, None, None);
    if |inbound| > 0 {
      raw := raw.(inboundTag := Some(inbound));
    }
    if |domain| > 0 {
      raw := raw.(domain := Some(domain));
    }
    if |ip| > 0 {
      raw := raw.(ip := Some(ip));
    }
    if |network| > 0 {
      raw := raw.(network := Some(Join(network)));
    }
    if |protocol| > 0 {
      raw := raw.(protocol := Some(protocol));
    }
    if |port| > 0 {
      raw := raw.(port := Some(port));
    }
    emitted := Some(raw);
  }

  /** buildXrayRoutingRules. */
  method BuildRoutingRules(rules: seq<Rule>) returns (raw: seq<XrayRule>)
    ensures raw == EmitAll(rules)
  {
    raw := [];
    for i := 0 to |rules|
      invariant raw == EmitAll(rules[..i])
    {
      assert rules[..i + 1][..i] == rules[..i];
      var emitted := Convert(rules[i]);
      if emitted == None {
        continue;
      }
      raw := raw + [emitted.value];
    }
    assert rules[..|rules|] == rules;
  }

  /** The part of convertToConfig that collects outbound tags. */
  method CollectTags(outbounds: seq<Outbound>, reverseTags: set<string>)
    returns (allowed: set<string>, handlers: set<string>)
    ensures allowed == Allowed(outbounds, reverseTags) && handlers == Handlers(outbounds, reverseTags)
  {
    allowed := reverseTags;
    var emitted := {};
    for i := 0 to |outbounds|
      invariant allowed == Allowed(outbounds[..i], reverseTags) && emitted == EmittedTags(outbounds[..i])
    {
      var out := outbounds[i];
      TagsAppend(outbounds[..i], out);
      assert outbounds[..i + 1] == outbounds[..i] + [out];
      if Trim(out.tag) == "" {
        continue;
      }
      if out.kind.Custom? {
        if Trim(out.kind.handlerName) == "" {
          continue;
        }
        allowed := allowed + {Trim(out.tag)};
        continue;
      }
      if out.kind.Skipped? {
        continue;
      }
      emitted := emitted + {Trim(out.tag)};
      allowed := allowed + {Trim(out.tag)};
    }
    assert outbounds[..|outbounds|] == outbounds;
    handlers := allowed + {"api"};
    if emitted == {} {
      handlers := handlers + {"direct"};
    }
  }

  lemma TagsAppend(front: seq<Outbound>, out: Outbound)
    ensures EmittedTags(front + [out]) == EmittedTags(front) + if Trim(out.tag) != "" && out.kind.Emitting?
              then {Trim(out.tag)} else {}
    ensures CustomTags(front + [out]) == CustomTags(front)
              + if Trim(out.tag) != "" && out.kind.Custom? && Trim(out.kind.handlerName) != "" then {Trim(out.tag)}
                else {}
  {
    var all := front + [out];
    assert forall o :: o in all <==> o in front || o == out;
    assert EmittedTags(all) == EmittedTags(front) + if Trim(out.tag) != "" && out.kind.Emitting? then {Trim(out.tag)}
      else {};
  }

  /** The part of convertToConfig that builds the rule list. */
  method ConvertRules(rules: seq<Rule>, allowed: set<string>) returns (list: seq<XrayRule>)
    ensures list == RuleList(rules, allowed)
    ensures forall c: Connection ::
              FirstXray(list, c) == if c(InboundTag, "api-in") then Some("api") else FirstSource(rules, allowed, c)
  {
    var normalized: seq<Rule> := [];
    for i := 0 to |rules|
      invariant normalized == Redirected(rules[..i], allowed)
    {
      assert rules[..i + 1][..i] == rules[..i];
      var tag := Trim(rules[i].outboundTag);
      if tag == "" {
        continue;
      }
      if tag !in allowed {
        normalized := normalized + [rules[i].(outboundTag := "direct")];
        continue;
      }
      normalized := normalized + [rules[i]];
    }
    assert rules[..|rules|] == rules;
    var raw := BuildRoutingRules(normalized);
    list := [API_RULE] + raw;
    forall c: Connection
      ensures FirstXray(list, c) == if c(InboundTag, "api-in") then Some("api") else FirstSource(rules, allowed, c)
    {
      if c(InboundTag, "api-in") {
        ApiComesFirst(rules, allowed, c);
      } else {
        RoutingKeepsMeaning(rules, allowed, c);
      }
    }
  }
}
