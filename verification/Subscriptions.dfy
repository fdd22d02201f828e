/** Subscription links, end to end. The manager previews an account's links
    (manager/src/services/registry_deploy.rs) and deploys a configuration from which the registry serves
    them (registry/cmd/registry/main.go). */
module Subscriptions {
  import opened Common
  import opened Placeholders

  datatype Account = Account(id: string, token: string, name: string, groups: seq<string>)

  /** template is None where no link template can be built for the inbound. */
  datatype Inbound = Inbound(enabled: bool, groups: seq<string>, template: Option<string>)

  /** The inbounds are those of the node's effective configuration. */
  datatype Node = Node(groups: seq<string>, inbounds: seq<Inbound>)

  datatype State = State(nodes: seq<Node>, accounts: seq<Account>)

  datatype TemplateLink = TemplateLink(template: string, groups: seq<string>)
  datatype RegistryConfig = RegistryConfig(accounts: seq<Account>, links: seq<TemplateLink>)

  function ValuesOf(a: Account): Values {
    Values(a.token, a.name, a.id)
  }

  // ---------- groups ----------

  /** The groups a list names: trimmed, without blanks and repetitions. */
  function GroupSet(values: seq<string>): set<string> {
    set v | v in values && Trim(v) != "" :: Trim(v)
  }

  /** normalize_groups in the manager: sorted. */
  ghost function SortedGroups(values: seq<string>): seq<string> {
    SortedStrings(GroupSet(values))
  }

  /** normalizeGroups in the registry: in order of first occurrence. */
  function FirstGroups(values: seq<string>): seq<string> {
    if values == [] then [] else
      var front, v := FirstGroups(values[..|values| - 1]), Trim(values[|values| - 1]);
      if v == "" || v in front then front else front + [v]
  }

  /** The groups of an inbound on its node: the node's own unless the inbound names some. */
  function EffectiveSet(node: seq<string>, inbound: seq<string>): set<string> {
    if GroupSet(inbound) == {} then GroupSet(node) else GroupSet(inbound) * GroupSet(node)
  }

  predicate Disjoint(a: set<string>, b: set<string>) {
    a * b == {}
  }

  lemma GroupSetAppends(front: seq<string>, last: string)
    ensures GroupSet(front + [last]) == GroupSet(front) + if Trim(last) != "" then {Trim(last)} else {}
  {
    assert forall v :: v in front + [last] <==> v in front || v == last;
  }

  lemma {:induction false} FirstGroupsMeaning(values: seq<string>)
    ensures Elements(FirstGroups(values)) == GroupSet(values)
    ensures forall i, j :: 0 <= i < j < |FirstGroups(values)| ==> FirstGroups(values)[i] != FirstGroups(values)[j]
  {
    if values != [] {
      var front, last := values[..|values| - 1], values[|values| - 1];
      FirstGroupsMeaning(front);
      GroupSetAppends(front, last);
      assert values == front + [last];
      assert forall v :: v in Elements(FirstGroups(values)) <==> v in FirstGroups(values);
    }
  }

  /** Normalised groups name themselves. */
  lemma GroupSetOfNormalized(set': set<string>, listed: seq<string>)
    requires Elements(listed) == set' && forall g :: g in set' ==> g != "" && Trim(g) == g
    ensures GroupSet(listed) == set'
  {
    forall g ensures g in GroupSet(listed) <==> g in set' {
      if g in set' {
        assert g in Elements(listed);
      }
      if g in GroupSet(listed) {
        var v :| v in listed && Trim(v) != "" && Trim(v) == g;
        assert v in Elements(listed);
      }
    }
  }

  lemma GroupsAreTrimmed(values: seq<string>)
    ensures forall g :: g in GroupSet(values) ==> g != "" && Trim(g) == g
  {
    forall g | g in GroupSet(values) ensures g != "" && Trim(g) == g {
      var v :| v in values && Trim(v) != "" && Trim(v) == g;
      TrimIdempotent(v);
    }
  }

  lemma SortedGroupsMeaning(values: seq<string>)
    ensures GroupSet(SortedGroups(values)) == GroupSet(values)
  {
    GroupsAreTrimmed(values);
    GroupSetOfNormalized(GroupSet(values), SortedGroups(values));
  }

  /** groups_intersect in the manager. */
  predicate ManagerIntersects(account: seq<string>, template: seq<string>) {
    !Disjoint(GroupSet(account), GroupSet(template))
  }

  /** groupsIntersect in the registry: a template without groups is for everybody. */
  predicate RegistryIntersects(account: seq<string>, template: seq<string>) {
    GroupSet(template) == {} || !Disjoint(GroupSet(account), GroupSet(template))
  }

  /** The two tests agree for every account exactly on templates that have a group. */
  lemma IntersectionsAgreeExactly(account: seq<string>, template: seq<string>)
    ensures ManagerIntersects(account, template) == RegistryIntersects(account, template) <==> GroupSet(template) != {}
  {
  }

  // ---------- the links of one inbound ----------

  /** One inbound together with the groups of its node. */
  datatype Offer = Offer(nodeGroups: seq<string>, inbound: Inbound)

  function OffersOf(groups: seq<string>, inbounds: seq<Inbound>): seq<Offer> {
    if inbounds == [] then []
      else OffersOf(groups, inbounds[..|inbounds| - 1]) + [Offer(groups, inbounds[|inbounds| - 1])]
  }

  function Offers(nodes: seq<Node>): seq<Offer> {
    if nodes == [] then [] else
      Offers(nodes[..|nodes| - 1]) + OffersOf(nodes[|nodes| - 1].groups, nodes[|nodes| - 1].inbounds)
  }

  ghost function InboundsBefore(nodes: seq<Node>, n: nat): nat
    requires n <= |nodes|
  {
    if n == 0 then 0 else InboundsBefore(nodes, n - 1) + |nodes[n - 1].inbounds|
  }

  lemma {:induction false} OffersOfOneNode(groups: seq<string>, inbounds: seq<Inbound>)
    ensures OffersOf(groups, inbounds) == seq(|inbounds|, i requires 0 <= i < |inbounds| => Offer(groups, inbounds[i]))
  {
    if inbounds != [] {
      OffersOfOneNode(groups, inbounds[..|inbounds| - 1]);
    }
  }

  lemma {:induction false} SameBefore(nodes: seq<Node>, m: nat, n: nat)
    requires n <= m <= |nodes|
    ensures InboundsBefore(nodes[..m], n) == InboundsBefore(nodes, n)
  {
    if n > 0 {
      SameBefore(nodes, m, n - 1);
    }
  }

  /** Inbound j of node n is offered with that node's groups, behind the inbounds of earlier nodes. */
  lemma {:induction false} OffersInOrder(nodes: seq<Node>, n: nat, j: nat)
    requires n < |nodes| && j < |nodes[n].inbounds|
    ensures |Offers(nodes)| == InboundsBefore(nodes, |nodes|)
    ensures InboundsBefore(nodes, n) + j < |Offers(nodes)|
    ensures Offers(nodes)[InboundsBefore(nodes, n) + j] == Offer(nodes[n].groups, nodes[n].inbounds[j])
  {
    var m := |nodes| - 1;
    var front := nodes[..m];
    OffersOfOneNode(nodes[m].groups, nodes[m].inbounds);
    OffersLength(front);
    SameBefore(nodes, m, m);
    SameBefore(nodes, m, n);
    if n < m {
      OffersInOrder(front, n, j);
    }
  }

  lemma {:induction false} OffersLength(nodes: seq<Node>)
    ensures |Offers(nodes)| == InboundsBefore(nodes, |nodes|)
  {
    if nodes != [] {
      var m := |nodes| - 1;
      OffersLength(nodes[..m]);
      OffersOfOneNode(nodes[m].groups, nodes[m].inbounds);
      SameBefore(nodes, m, m);
    }
  }

  /** Skipped by both sides: disabled, or naming groups of which the node has none. */
  predicate Offered(o: Offer) {
    o.inbound.enabled && !(EffectiveSet(o.nodeGroups, o.inbound.groups) == {} && GroupSet(o.inbound.groups) != {})
  }

  function PreviewLink(o: Offer, a: Account): Option<string> {
    if !Offered(o) || Disjoint(GroupSet(a.groups),
      EffectiveSet(o.nodeGroups, o.inbound.groups)) || o.inbound.template == None then None
    else
      var link := Trim(RenderChained(o.inbound.template.value, ValuesOf(a)));
      if link == "" then None else Some(link)
  }

  function ServedLink(t: TemplateLink, a: Account): Option<string> {
    if !RegistryIntersects(a.groups, t.groups) || Trim(t.template) == "" then None
    else
      var link := RenderAtOnce(Trim(t.template), WithDisplayName(ValuesOf(a)));
      if Trim(link) == "" then None else Some(link)
  }

  /** The list without later repetitions. */
  function AddLink(links: seq<string>, link: Option<string>): seq<string> {
    if link.Some? && link.value !in links then links + [link.value] else links
  }

  function Preview(offers: seq<Offer>, a: Account): seq<string> {
    if offers == [] then [] else AddLink(Preview(offers[..|offers| - 1], a), PreviewLink(offers[|offers| - 1], a))
  }

  function Served(links: seq<TemplateLink>, a: Account): seq<string> {
    if links == [] then [] else AddLink(Served(links[..|links| - 1], a), ServedLink(links[|links| - 1], a))
  }

  ghost function DeployedLink(o: Offer): TemplateLink
    requires o.inbound.template.Some?
  {
    TemplateLink(o.inbound.template.value, SortedStrings(EffectiveSet(o.nodeGroups, o.inbound.groups)))
  }

  ghost function Deployable(o: Offer): Option<TemplateLink> {
    if Offered(o) && o.inbound.template.Some? then Some(DeployedLink(o)) else None
  }

  ghost function Deployed(offers: seq<Offer>): seq<TemplateLink> {
    if offers == [] then [] else
      var front, t := Deployed(offers[..|offers| - 1]), Deployable(offers[|offers| - 1]);
      if t.Some? then front + [t.value] else front
  }

  /** The account as the registry knows it. */
  ghost function Registered(a: Account): Account {
    a.(groups := SortedGroups(a.groups))
  }

  ghost function DeployedConfig(s: State): RegistryConfig {
    RegistryConfig(seq(|s.accounts|, i requires 0 <= i < |s.accounts| => Registered(s.accounts[i])),
      Deployed(Offers(s.nodes)))
  }

  function FindByToken(accounts: seq<Account>, token: string): Option<Account> {
    if accounts == [] then None
    else if Trim(accounts[0].token) == token then Some(accounts[0])
    else FindByToken(accounts[1..], token)
  }

  // ---------- one offer ----------

  /** Values that a link can show faithfully: trimmed, not empty, and safe in every template. */
  ghost predicate Showable(a: Account) {
    SafeValues(ValuesOf(a)) && Solid(a.token) && Solid(a.name) && Solid(a.id)
  }

  /** Apart from outer white space the template consists of these placeholders and inert texts. */
  ghost predicate Spells(pieces: seq<Piece>, template: string) {
    WellFormed(pieces) && Spelled(pieces) == Trim(template)
  }

  ghost predicate Clean(template: string) {
    exists pieces :: Spells(pieces, template)
  }

  lemma {:induction false} TrimStartSplits(s: string) returns (left: string)
    ensures Blank(left) && s == left + TrimStart(s)
  {
    left := "";
    if s != "" && IsSpace(s[0]) {
      var rest := TrimStartSplits(s[1..]);
      left := [s[0]] + rest;
    }
  }

  lemma {:induction false} TrimEndSplits(s: string) returns (right: string)
    ensures Blank(right) && s == TrimEnd(s) + right
  {
    right := "";
    if s != "" && IsSpace(s[|s| - 1]) {
      var rest := TrimEndSplits(s[..|s| - 1]);
      right := rest + [s[|s| - 1]];
    }
  }

  lemma TrimSplits(s: string) returns (left: string, right: string)
    ensures Blank(left) && Blank(right) && s == left + Trim(s) + right
  {
    left := TrimStartSplits(s);
    right := TrimEndSplits(TrimStart(s));
    assert s == left + (Trim(s) + right);
  }

  lemma {:induction false} TrimStartDrops(left: string, s: string)
    requires Blank(left)
    ensures TrimStart(left + s) == TrimStart(s)
  {
    if left == "" {
      assert left + s == s;
    } else {
      assert (left + s)[1..] == left[1..] + s;
      TrimStartDrops(left[1..], s);
    }
  }

  lemma {:induction false} TrimEndDrops(s: string, right: string)
    requires Blank(right)
    ensures TrimEnd(s + right) == TrimEnd(s)
  {
    if right == "" {
      assert s + right == s;
    } else {
      assert (s + right)[..|s + right| - 1] == s + right[..|right| - 1];
      TrimEndDrops(s, right[..|right| - 1]);
    }
  }

  /** White space around a trimmed, non-empty text goes away. */
  lemma MarginsTrimAway(left: string, s: string, right: string)
    requires Blank(left) && Blank(right) && Trimmed(s) && s != ""
    ensures Trim(left + s + right) == s
  {
    assert left + s + right == left + (s + right);
    TrimStartDrops(left, s + right);
    assert (s + right)[0] == s[0];
    TrimEndDrops(s, right);
  }

  /** Two texts are both empty, or both begin and end alike as far as white space goes. */
  predicate SameEnds(a: string, b: string) {
    (a == "" <==> b == "") && (a != "" && b != "" ==>
      IsSpace(a[0]) == IsSpace(b[0]) && IsSpace(a[|a| - 1]) == IsSpace(b[|b| - 1]))
  }

  lemma SameEndsConcat(a: string, b: string, c: string, d: string)
    requires SameEnds(a, b) && SameEnds(c, d)
    ensures SameEnds(a + c, b + d)
  {
    if a == "" {
      assert a + c == c && b + d == d;
    } else {
      assert (a + c)[0] == a[0] && (b + d)[0] == b[0];
    }
  }

  predicate Solid(s: string) {
    s != "" && Trimmed(s)
  }

  lemma PieceEnds(p: Piece, v: Values)
    requires Solid(v.token) && Solid(v.name) && Solid(v.id)
    ensures SameEnds(Written(p), if p.Text? then p.text else ValueOf(v, p.kind))
  {
    hide Pattern, Word;
    if p.Hole? {
      NoSpaceInPattern(p.kind, p.double);
      PatternShape(p.kind, p.double);
    }
  }

  lemma {:induction false} RenderedEnds(pieces: seq<Piece>, v: Values)
    requires Solid(v.token) && Solid(v.name) && Solid(v.id)
    ensures SameEnds(Template(pieces), Rendered(pieces, v))
  {
    if pieces != [] {
      RenderedEnds(pieces[1..], v);
      PieceEnds(pieces[0], v);
      SameEndsConcat(Written(pieces[0]), if pieces[0].Text? then pieces[0].text else ValueOf(v, pieces[0].kind),
                     Template(pieces[1..]), Rendered(pieces[1..], v));
    }
  }

  /** For one offer with a template: the preview link and the served link agree exactly unless the offer is
      for everybody in the registry and for nobody in the preview, which is when neither the node nor the
      inbound names a group. */
  lemma OfferAgreesExactly(o: Offer, a: Account)
    requires Showable(a) && o.inbound.template.Some? && Clean(o.inbound.template.value) && Offered(o)
    ensures PreviewLink(o, a) == ServedLink(DeployedLink(o), Registered(a))
       <==> GroupSet(o.nodeGroups) != {} || GroupSet(o.inbound.groups) != {} || Trim(o.inbound.template.value) == ""
  {
    var template, v := o.inbound.template.value, ValuesOf(a);
    var link := LinkShown(template, v);
    assert WithDisplayName(v) == v;
    TrimOfTrimmed(link);
    SameTest(o, a);
  }

  /** Both renderings of a clean template with solid, safe values show the same trimmed link. */
  lemma LinkShown(template: string, v: Values) returns (link: string)
    requires Clean(template) && SafeValues(v) && Solid(v.token) && Solid(v.name) && Solid(v.id)
    ensures RenderAtOnce(Trim(template), v) == link && Trim(RenderChained(template, v)) == link
    ensures Trimmed(link) && (link == "" <==> Trim(template) == "")
  {
    var pieces :| Spells(pieces, template);
    link := Rendered(pieces, v);
    LinkRendered(template, pieces, v);
  }

  lemma LinkRendered(template: string, pieces: seq<Piece>, v: Values)
    requires Spells(pieces, template) && SafeValues(v) && Solid(v.token) && Solid(v.name) && Solid(v.id)
    ensures var link := Rendered(pieces, v);
            && RenderAtOnce(Trim(template), v) == link && Trim(RenderChained(template, v)) == link
            && Trimmed(link) && (link == "" <==> Trim(template) == "")
  {
    hide RenderAtOnce, RenderChained, Rendered, Template, WellFormed, Safe, Spelled;
    var link := Rendered(pieces, v);
    SpelledIsTemplate(pieces);
    var left, right := TrimSplits(template);
    ChainKeepsMargins(left, Trim(template), right, v);
    ChainedRenders(pieces, v);
    AtOnceRenders(pieces, v);
    RenderedEnds(pieces, v);
    TrimTrims(template);
    if Trim(template) != "" {
      MarginsTrimAway(left, link, right);
    } else {
      BlankTrims(left, right);
    }
  }

  lemma BlankTrims(left: string, right: string)
    requires Blank(left) && Blank(right)
    ensures Trim(left + "" + right) == ""
  {
    assert left + "" + right == left + right;
    TrimStartDrops(left, right);
    TrimStartDrops(right, "");
    assert right + "" == right;
  }

  lemma SameTest(o: Offer, a: Account)
    requires o.inbound.template.Some?
    ensures var effective := EffectiveSet(o.nodeGroups, o.inbound.groups);
            RegistryIntersects(Registered(a).groups, DeployedLink(o).groups)
            <==> effective == {} || !Disjoint(GroupSet(a.groups), effective)
  {
    SortedGroupsMeaning(a.groups);
    GroupsAreTrimmed(o.nodeGroups);
    GroupsAreTrimmed(o.inbound.groups);
    GroupSetOfNormalized(EffectiveSet(o.nodeGroups, o.inbound.groups), DeployedLink(o).groups);
  }

  // ---------- the whole list ----------

  /** What the list theorem asks of an offer that both sides would show. */
  ghost predicate Presentable(o: Offer) {
    Offered(o) && o.inbound.template.Some? ==>
      Clean(o.inbound.template.value) && (GroupSet(o.nodeGroups) != {} || GroupSet(o.inbound.groups) != {})
  }

  lemma {:induction false} ListsAgree(offers: seq<Offer>, a: Account)
    requires Showable(a) && forall o :: o in offers ==> Presentable(o)
    ensures Preview(offers, a) == Served(Deployed(offers), Registered(a))
  {
    if offers != [] {
      var front, o := offers[..|offers| - 1], offers[|offers| - 1];
      ListsAgree(front, a);
      assert o in offers;
      if Offered(o) && o.inbound.template.Some? {
        OfferAgreesExactly(o, a);
        var links := Deployed(offers);
        assert links[..|links| - 1] == Deployed(front);
      } else {
        assert Deployed(offers) == Deployed(front);
      }
    }
  }

  // ---------- the lists, from fields alone ----------

  /** A list names a group: some entry is that group but for outer white space. */
  ghost predicate NamesGroup(values: seq<string>, g: string) {
    g != "" && exists v :: v in values && Trim(v) == g
  }

  /** The preview shows an enabled inbound to an account that shares a group with its node, and with the inbound itself
      if that names any. */
  ghost predicate VisibleTo(o: Offer, a: Account) {
    o.inbound.enabled && exists g ::
      NamesGroup(a.groups, g) && NamesGroup(o.nodeGroups, g) &&
      (NamesGroup(o.inbound.groups, g) || forall h :: !NamesGroup(o.inbound.groups, h))
  }

  /** The registry serves a link to an account that shares a group with it, or to everybody if it names none. */
  ghost predicate ServedTo(t: TemplateLink, a: Account) {
    (exists g :: NamesGroup(a.groups, g) && NamesGroup(t.groups, g)) || forall h :: !NamesGroup(t.groups, h)
  }

  ghost predicate SpellsOffers(pieces: seq<seq<Piece>>, offers: seq<Offer>) {
    |pieces| == |offers| &&
    forall i :: 0 <= i < |offers| && offers[i].inbound.enabled && offers[i].inbound.template.Some? ==>
      Spells(pieces[i], offers[i].inbound.template.value)
  }

  ghost predicate SpellsLinks(pieces: seq<seq<Piece>>, links: seq<TemplateLink>) {
    |pieces| == |links| && forall i :: 0 <= i < |links| ==> Spells(pieces[i], links[i].template)
  }

  /** The links of the visible inbounds, each with the account's token, name and id in their places, in order and
      once. */
  ghost function PreviewList(offers: seq<Offer>, pieces: seq<seq<Piece>>, a: Account): seq<string>
    requires |pieces| == |offers|
  {
    if offers == [] then [] else
      var n := |offers| - 1;
      var front, link := PreviewList(offers[..n], pieces[..n], a), Shown(pieces[n], a.token, a.name, a.id);
      if VisibleTo(offers[n], a) && offers[n].inbound.template.Some? && link != "" && link !in front
      then front + [link] else front
  }

  /** The served links, each with the account's token, its name or else its id, and its id in their places, in order and
      once. */
  ghost function ServedList(links: seq<TemplateLink>, pieces: seq<seq<Piece>>, a: Account): seq<string>
    requires |pieces| == |links|
  {
    if links == [] then [] else
      var n := |links| - 1;
      var front := ServedList(links[..n], pieces[..n], a);
      var link := Shown(pieces[n], a.token, if a.name == "" then a.id else a.name, a.id);
      if ServedTo(links[n], a) && Trim(link) != "" && link !in front then front + [link] else front
  }

  lemma GroupSetNames(values: seq<string>)
    ensures forall g :: g in GroupSet(values) <==> NamesGroup(values, g)
    ensures GroupSet(values) == {} <==> forall h :: !NamesGroup(values, h)
  {
    hide Trim;
    forall g ensures g in GroupSet(values) <==> NamesGroup(values, g) {
      if NamesGroup(values, g) {
        var v :| v in values && Trim(v) == g;
        assert Trim(v) in GroupSet(values);
      }
    }
    if GroupSet(values) != {} {
      var g :| g in GroupSet(values);
      assert NamesGroup(values, g);
    }
  }

  lemma VisibleExactly(o: Offer, a: Account)
    ensures VisibleTo(o, a) <==>
              Offered(o) && !Disjoint(GroupSet(a.groups), EffectiveSet(o.nodeGroups, o.inbound.groups))
  {
    hide GroupSet, NamesGroup;
    var mine, node, own := GroupSet(a.groups), GroupSet(o.nodeGroups), GroupSet(o.inbound.groups);
    var effective := EffectiveSet(o.nodeGroups, o.inbound.groups);
    GroupSetNames(a.groups);
    GroupSetNames(o.nodeGroups);
    GroupSetNames(o.inbound.groups);
    if VisibleTo(o, a) {
      var g :| NamesGroup(a.groups, g) && NamesGroup(o.nodeGroups, g) &&
               (NamesGroup(o.inbound.groups, g) || forall h :: !NamesGroup(o.inbound.groups, h));
      assert g in mine * effective;
    }
    if o.inbound.enabled && !Disjoint(mine, effective) {
      var g :| g in mine * effective;
      assert NamesGroup(a.groups, g) && NamesGroup(o.nodeGroups, g);
    }
  }

  lemma ServedExactly(t: TemplateLink, a: Account)
    ensures ServedTo(t, a) <==> RegistryIntersects(a.groups, t.groups)
  {
    hide GroupSet, NamesGroup;
    GroupSetNames(a.groups);
    GroupSetNames(t.groups);
    if !Disjoint(GroupSet(a.groups), GroupSet(t.groups)) {
      var g :| g in GroupSet(a.groups) * GroupSet(t.groups);
      assert NamesGroup(a.groups, g) && NamesGroup(t.groups, g);
    }
    if ServedTo(t, a) && exists h :: NamesGroup(t.groups, h) {
      var g :| NamesGroup(a.groups, g) && NamesGroup(t.groups, g);
      assert g in GroupSet(a.groups) * GroupSet(t.groups);
    }
  }

  /** The preview of one inbound, for an account whose values can be shown. */
  lemma PreviewShows(o: Offer, pieces: seq<Piece>, a: Account)
    requires Showable(a)
    requires o.inbound.enabled && o.inbound.template.Some? ==> Spells(pieces, o.inbound.template.value)
    ensures var link := Shown(pieces, a.token, a.name, a.id);
            PreviewLink(o, a) ==
              if VisibleTo(o, a) && o.inbound.template.Some? && link != "" then Some(link) else None
  {
    hide RenderChained, RenderAtOnce, Spells, VisibleTo, GroupSet, EffectiveSet, Disjoint, SafeValues, Solid;
    VisibleExactly(o, a);
    ShownIsRendered(pieces, ValuesOf(a));
    if o.inbound.enabled && o.inbound.template.Some? {
      LinkRendered(o.inbound.template.value, pieces, ValuesOf(a));
    }
  }

  /** One link the registry serves, whatever the account holds. */
  lemma ServedShows(t: TemplateLink, pieces: seq<Piece>, a: Account)
    requires Spells(pieces, t.template)
    ensures var link := Shown(pieces, a.token, if a.name == "" then a.id else a.name, a.id);
            ServedLink(t, a) == if ServedTo(t, a) && Trim(link) != "" then Some(link) else None
  {
    hide WellFormed, Spelled, Template, ServedTo, RegistryIntersects, RenderAtOnce;
    var v := WithDisplayName(ValuesOf(a));
    ServedExactly(t, a);
    ShownIsRendered(pieces, v);
    SpelledIsTemplate(pieces);
    AtOnceRenders(pieces, v);
    EmptyRenders(v);
  }

  lemma EmptyRenders(v: Values)
    ensures RenderAtOnce("", v) == "" && Trim("") == ""
  {
  }

  /** The whole preview. */
  lemma {:induction false} PreviewMeaning(offers: seq<Offer>, pieces: seq<seq<Piece>>, a: Account)
    requires Showable(a) && SpellsOffers(pieces, offers)
    ensures Preview(offers, a) == PreviewList(offers, pieces, a)
  {
    hide PreviewLink, Showable, Spells, VisibleTo;
    if offers != [] {
      var n := |offers| - 1;
      assert forall i :: 0 <= i < n ==> offers[..n][i] == offers[i] && pieces[..n][i] == pieces[i];
      PreviewMeaning(offers[..n], pieces[..n], a);
      PreviewShows(offers[n], pieces[n], a);
    }
  }

  /** The whole list that the registry serves, for every account. */
  lemma {:induction false} ServedMeaning(links: seq<TemplateLink>, pieces: seq<seq<Piece>>, a: Account)
    requires SpellsLinks(pieces, links)
    ensures Served(links, a) == ServedList(links, pieces, a)
  {
    hide ServedLink, Spells, ServedTo;
    if links != [] {
      var n := |links| - 1;
      assert forall i :: 0 <= i < n ==> links[..n][i] == links[i] && pieces[..n][i] == pieces[i];
      ServedMeaning(links[..n], pieces[..n], a);
      ServedShows(links[n], pieces[n], a);
    }
  }

  lemma {:induction false} FoundByToken(accounts: seq<Account>, i: nat)
    requires i < |accounts| && forall j :: 0 <= j < i ==> Trim(accounts[j].token) != Trim(accounts[i].token)
    ensures FindByToken(accounts, Trim(accounts[i].token)) == Some(accounts[i])
  {
    if i > 0 {
      assert accounts[1..][i - 1] == accounts[i];
      FoundByToken(accounts[1..], i - 1);
    }
  }

  /** The preview agrees with the service: for an account whose token is not taken by an earlier one, the
      registry finds it by its token and serves the links that the manager previews. Those are, in order and without
      repetitions, the templates of the visible inbounds with the account's values in their places. */
  lemma PreviewAgreesWithService(s: State, i: nat)
    requires i < |s.accounts| && Showable(s.accounts[i])
    requires forall j :: 0 <= j < i ==> Trim(s.accounts[j].token) != Trim(s.accounts[i].token)
    requires forall o :: o in Offers(s.nodes) ==> Presentable(o)
    ensures var found := FindByToken(DeployedConfig(s).accounts, Trim(s.accounts[i].token));
            && found == Some(Registered(s.accounts[i]))
            && Served(DeployedConfig(s).links, found.value) == Preview(Offers(s.nodes), s.accounts[i])
    ensures forall pieces :: SpellsOffers(pieces, Offers(s.nodes)) ==>
              Preview(Offers(s.nodes), s.accounts[i]) == PreviewList(Offers(s.nodes), pieces, s.accounts[i])
    ensures var found := Registered(s.accounts[i]);
            found.(groups := []) == s.accounts[i].(groups := []) &&
            forall g :: g in found.groups <==> NamesGroup(s.accounts[i].groups, g)
  {
    hide Offers, Preview, PreviewList, Served, Deployed, Showable, Presentable, NamesGroup, GroupSet;
    var accounts, a := DeployedConfig(s).accounts, s.accounts[i];
    FoundByToken(accounts, i);
    ListsAgree(Offers(s.nodes), a);
    forall pieces | SpellsOffers(pieces, Offers(s.nodes))
      ensures Preview(Offers(s.nodes), a) == PreviewList(Offers(s.nodes), pieces, a)
    {
      PreviewMeaning(Offers(s.nodes), pieces, a);
    }
    GroupSetNames(a.groups);
    assert forall g :: g in Elements(SortedGroups(a.groups)) <==> g in SortedGroups(a.groups);
  }

  /** Without any groups the two disagree: the registry serves everybody what the preview shows nobody. */
  lemma UngroupedOfferDiffers(template: string, a: Account)
    requires Showable(a) && Clean(template) && Trim(template) != ""
    ensures var o := Offer([], Inbound(true, [], Some(template)));
            PreviewLink(o, a) == None && ServedLink(DeployedLink(o), Registered(a)).Some?
  {
    var o := Offer([], Inbound(true, [], Some(template)));
    OfferAgreesExactly(o, a);
  }

  // ---------- the manager's operations ----------

  /** Vec::sort on strings. */
  method SortList(s: seq<string>) returns (r: seq<string>)
    ensures Elements(r) == Elements(s) && Ordered(r)
  {
    r := [];
    for n := 0 to |s|
      invariant Elements(r) == Elements(s[..n]) && Ordered(r)
    {
      assert s[..n + 1] == s[..n] + [s[n]];
      r := InsertString(r, s[n]);
      ElementsAppend(s[..n], s[n]);
    }
    assert s[..|s|] == s;
  }

  /** Ascending, repetitions allowed. */
  ghost predicate Ordered(s: seq<string>) {
    s == [] || (
      var front, last := s[..|s| - 1], s[|s| - 1];
      Ordered(front) && forall x :: x in front ==> x == last || Before(x, last))
  }

  lemma ElementsAppend(s: seq<string>, x: string)
    ensures Elements(s + [x]) == Elements(s) + {x}
  {
  }

  ghost predicate Bounded(s: seq<string>, x: string) {
    forall y :: y in s ==> y == x || Before(y, x)
  }

  lemma OrderedAppend(s: seq<string>, x: string)
    requires Ordered(s) && Bounded(s, x)
    ensures Ordered(s + [x]) && Elements(s + [x]) == Elements(s) + {x}
  {
    hide Before;
    assert (s + [x])[..|s|] == s;
  }

  /** The last string of an ordered list bounds the rest. */
  lemma OrderedLast(s: seq<string>)
    requires Ordered(s) && s != []
    ensures var front, last := s[..|s| - 1], s[|s| - 1];
            Ordered(front) && Bounded(front, last) && Elements(s) == Elements(front) + {last}
  {
    hide Before;
    ElementsAppend(s[..|s| - 1], s[|s| - 1]);
    assert s == s[..|s| - 1] + [s[|s| - 1]];
  }

  lemma BoundedBeyond(s: seq<string>, last: string, x: string)
    requires s != [] && last == s[|s| - 1] && Bounded(s[..|s| - 1], last) && (last == x || Before(last, x))
    ensures Bounded(s, x)
  {
    hide Before;
    forall y | y in s ensures y == x || Before(y, x) {
      if y != last && last != x {
        assert y in s[..|s| - 1];
        BeforeTransitive(y, last, x);
      }
    }
  }

  lemma BoundedElements(s: seq<string>, front: seq<string>, x: string, last: string)
    requires Elements(s) == Elements(front) + {x} && Bounded(front, last) && Before(x, last)
    ensures Bounded(s, last)
  {
    hide Before;
    forall y | y in s ensures y == last || Before(y, last) {
      assert y in Elements(s);
      assert y in Elements(front) || y == x;
    }
  }

  method InsertString(s: seq<string>, x: string) returns (r: seq<string>)
    requires Ordered(s)
    ensures Ordered(r) && Elements(r) == Elements(s) + {x}
    decreases |s|
  {
    hide Ordered, Bounded, Before;
    if s == [] {
      OneOrdered(x);
      return [x];
    }
    var last, front := s[|s| - 1], s[..|s| - 1];
    OrderedLast(s);
    BeforeTotal(last, x);
    if last == x || Before(last, x) {
      BoundedBeyond(s, last, x);
      OrderedAppend(s, x);
      r := s + [x];
    } else {
      var inner := InsertString(front, x);
      BoundedElements(inner, front, x, last);
      OrderedAppend(inner, last);
      r := inner + [last];
    }
  }

  lemma OneOrdered(x: string)
    ensures Ordered([x])
  {
    assert [x][..0] == [];
  }

  lemma {:induction false} AscendingUnique(s: seq<string>)
    requires Ascending(s)
    ensures s == SortedStrings(Elements(s))
    decreases |s|
  {
    if s != [] {
      var first, rest := s[0], s[1..];
      assert s == [first] + rest;
      forall i | 0 <= i < |rest| ensures Before(first, rest[i]) && rest[i] != first {
        assert rest[i] == s[i + 1];
        BeforeStrict(first, s[i + 1]);
      }
      assert Ascending(rest) by {
        forall i, j | 0 <= i < j < |rest| ensures Before(rest[i], rest[j]) {
          assert Before(s[i + 1], s[j + 1]);
        }
      }
      ElementsCons(first, rest);
      assert first !in rest;
      assert Elements(s) - {first} == Elements(rest);
      assert IsLeast(Elements(s), first);
      LeastIsUnique(Elements(s), first);
      AscendingUnique(rest);
    }
  }

  /** normalize_groups. */
  method NormalizeGroups(values: seq<string>) returns (groups: seq<string>)
    ensures groups == SortedGroups(values)
  {
    var kept: seq<string> := [];
    for i := 0 to |values|
      invariant Elements(kept) == GroupSet(values[..i])
    {
      assert values[..i + 1] == values[..i] + [values[i]];
      GroupSetAppends(values[..i], values[i]);
      var value := Trim(values[i]);
      if value != "" {
        ElementsAppend(kept, value);
        kept := kept + [value];
      }
    }
    assert values[..|values|] == values;
    var sorted := SortList(kept);
    groups := DedupSorted(sorted);
    AscendingUnique(groups);
  }

  /** Vec::dedup drops equal neighbours; on an ordered list that is every repetition. */
  method DedupSorted(s: seq<string>) returns (r: seq<string>)
    requires Ordered(s)
    ensures Ascending(r) && Elements(r) == Elements(s)
  {
    r := [];
    for i := 0 to |s|
      invariant Ordered(s[..i]) && Ascending(r) && Elements(r) == Elements(s[..i])
      invariant i > 0 ==> r != [] && r[|r| - 1] == s[i - 1]
    {
      OrderedPrefix(s, i + 1);
      assert s[..i + 1] == s[..i] + [s[i]];
      assert s[..i + 1][..i] == s[..i];
      ElementsAppend(s[..i], s[i]);
      if r != [] && r[|r| - 1] == s[i] {
        assert s[i] in Elements(r);
        continue;
      }
      if i > 0 {
        assert s[i - 1] in s[..i];
        assert Before(s[i - 1], s[i]);
        AllBefore(r, s[i]);
      } else {
        EmptyList(r);
      }
      ElementsAppend(r, s[i]);
      r := r + [s[i]];
    }
    assert s[..|s|] == s;
  }

  lemma AllBefore(r: seq<string>, x: string)
    requires Ascending(r) && r != [] && Before(r[|r| - 1], x)
    ensures forall j :: 0 <= j < |r| ==> Before(r[j], x)
    ensures Ascending(r + [x])
  {
    forall j | 0 <= j < |r| ensures Before(r[j], x) {
      if j < |r| - 1 {
        BeforeTransitive(r[j], r[|r| - 1], x);
      }
    }
  }

  lemma {:induction false} OrderedPrefix(s: seq<string>, n: nat)
    requires Ordered(s) && n <= |s|
    ensures Ordered(s[..n])
    decreases |s|
  {
    if n < |s| {
      OrderedPrefix(s[..|s| - 1], n);
      assert s[..|s| - 1][..n] == s[..n];
    } else {
      assert s[..n] == s;
    }
  }

  lemma EmptyList(r: seq<string>)
    ensures Elements(r) == {} ==> r == []
  {
    if r != [] {
      assert r[0] in Elements(r);
    }
  }

  /** effective_inbound_groups. */
  method EffectiveGroups(node: seq<string>, inbound: seq<string>) returns (groups: seq<string>)
    ensures groups == SortedStrings(EffectiveSet(node, inbound))
  {
    var nodeGroups := NormalizeGroups(node);
    var inboundGroups := NormalizeGroups(inbound);
    SortedAscend(GroupSet(inbound));
    assert Elements(inboundGroups) == GroupSet(inbound) && Elements(nodeGroups) == GroupSet(node);
    if |inboundGroups| == 0 {
      assert GroupSet(inbound) == {};
      return nodeGroups;
    }
    assert inboundGroups[0] in Elements(inboundGroups);
    groups := [];
    for i := 0 to |inboundGroups|
      invariant Elements(groups) == Elements(inboundGroups[..i]) * GroupSet(node)
      invariant Ascending(groups)
    {
      assert inboundGroups[..i + 1] == inboundGroups[..i] + [inboundGroups[i]];
      ElementsAppend(inboundGroups[..i], inboundGroups[i]);
      if inboundGroups[i] in nodeGroups {
        assert inboundGroups[i] in Elements(nodeGroups);
        forall j | 0 <= j < |groups| ensures Before(groups[j], inboundGroups[i]) {
          assert groups[j] in Elements(groups);
          assert groups[j] in Elements(inboundGroups[..i]);
          var k :| 0 <= k < i && inboundGroups[..i][k] == groups[j];
          assert Before(inboundGroups[k], inboundGroups[i]);
        }
        ElementsAppend(groups, inboundGroups[i]);
        groups := groups + [inboundGroups[i]];
      } else {
        assert inboundGroups[i] !in Elements(nodeGroups);
      }
    }
    assert inboundGroups[..|inboundGroups|] == inboundGroups;
    AscendingUnique(groups);
  }

  method IntersectGroups(account: seq<string>, template: seq<string>) returns (r: bool)
    ensures r == ManagerIntersects(account, template)
  {
    var a := NormalizeGroups(account);
    var t := NormalizeGroups(template);
    assert Elements(a) == GroupSet(account) && Elements(t) == GroupSet(template);
    r := exists g :: g in a && g in t;
    if r {
      var g :| g in a && g in t;
      assert g in GroupSet(account) * GroupSet(template);
    } else {
      forall g ensures g !in GroupSet(account) * GroupSet(template) {
        assert g in GroupSet(account) ==> g in Elements(a);
        assert g in GroupSet(template) ==> g in Elements(t);
      }
    }
  }

  /** The body of the inner loop of collect_account_proxy_links. */
  method PreviewOffer(o: Offer, a: Account) returns (link: Option<string>)
    ensures link == PreviewLink(o, a)
  {
    if !o.inbound.enabled {
      return None;
    }
    var effective := EffectiveGroups(o.nodeGroups, o.inbound.groups);
    var own := NormalizeGroups(o.inbound.groups);
    EffectiveListing(o, effective, own);
    if |effective| == 0 && |own| != 0 {
      return None;
    }
    var shared := IntersectGroups(a.groups, effective);
    if !shared {
      return None;
    }
    if o.inbound.template == None {
      return None;
    }
    var trimmed := Trim(RenderChained(o.inbound.template.value, ValuesOf(a)));
    if trimmed == "" {
      return None;
    }
    link := Some(trimmed);
  }

  lemma EffectiveListing(o: Offer, effective: seq<string>, own: seq<string>)
    requires effective == SortedStrings(EffectiveSet(o.nodeGroups, o.inbound.groups)) &&
             own == SortedGroups(o.inbound.groups)
    ensures |effective| == 0 <==> EffectiveSet(o.nodeGroups, o.inbound.groups) == {}
    ensures |own| == 0 <==> GroupSet(o.inbound.groups) == {}
    ensures GroupSet(effective) == EffectiveSet(o.nodeGroups, o.inbound.groups)
  {
    assert Elements(effective) == EffectiveSet(o.nodeGroups, o.inbound.groups) &&
      Elements(own) == GroupSet(o.inbound.groups);
    if effective != [] {
      assert effective[0] in Elements(effective);
    }
    if own != [] {
      assert own[0] in Elements(own);
    }
    GroupsAreTrimmed(o.nodeGroups);
    GroupsAreTrimmed(o.inbound.groups);
    GroupSetOfNormalized(EffectiveSet(o.nodeGroups, o.inbound.groups), effective);
  }

  /** collect_account_proxy_links. */
  method CollectLinks(s: State, a: Account) returns (links: seq<string>)
    ensures links == Preview(Offers(s.nodes), a)
    ensures Showable(a) ==> forall pieces :: SpellsOffers(pieces, Offers(s.nodes)) ==>
                              links == PreviewList(Offers(s.nodes), pieces, a)
  {
    links := [];
    var seen: set<string> := {};
    ghost var done: seq<Offer> := [];
    for n := 0 to |s.nodes|
      invariant done == Offers(s.nodes[..n])
      invariant links == Preview(done, a) && seen == Elements(links)
    {
      var node := s.nodes[n];
      ghost var before := done;
      for i := 0 to |node.inbounds|
        invariant done == before + OffersOf(node.groups, node.inbounds[..i])
        invariant links == Preview(done, a) && seen == Elements(links)
      {
        var o := Offer(node.groups, node.inbounds[i]);
        OfferAppends(before, node, i);
        assert (done + [o])[..|done|] == done;
        done := done + [o];
        var link := PreviewOffer(o, a);
        if link.Some? && link.value !in seen {
          assert link.value !in links;
          ElementsAppend(links, link.value);
          seen := seen + {link.value};
          links := links + [link.value];
        } else if link.Some? {
          assert link.value in Elements(links);
        }
      }
      NodeAppends(s.nodes, n, before);
      assert node.inbounds[..|node.inbounds|] == node.inbounds;
    }
    assert s.nodes[..|s.nodes|] == s.nodes;
    if Showable(a) {
      forall pieces | SpellsOffers(pieces, Offers(s.nodes)) ensures links == PreviewList(Offers(s.nodes), pieces, a) {
        PreviewMeaning(Offers(s.nodes), pieces, a);
      }
    }
  }

  lemma OfferAppends(before: seq<Offer>, node: Node, i: nat)
    requires i < |node.inbounds|
    ensures before + OffersOf(node.groups, node.inbounds[..i + 1])
         == before + OffersOf(node.groups, node.inbounds[..i]) + [Offer(node.groups, node.inbounds[i])]
  {
    assert node.inbounds[..i + 1][..i] == node.inbounds[..i];
  }

  lemma NodeAppends(nodes: seq<Node>, n: nat, before: seq<Offer>)
    requires n < |nodes| && before == Offers(nodes[..n])
    ensures before + OffersOf(nodes[n].groups, nodes[n].inbounds) == Offers(nodes[..n + 1])
  {
    assert nodes[..n + 1][..n] == nodes[..n];
  }

  /** The body of the inner loop of build_registry_config. */
  method DeployOffer(o: Offer) returns (link: Option<TemplateLink>)
    ensures link == Deployable(o)
  {
    if !o.inbound.enabled {
      return None;
    }
    var effective := EffectiveGroups(o.nodeGroups, o.inbound.groups);
    var own := NormalizeGroups(o.inbound.groups);
    EffectiveListing(o, effective, own);
    if |effective| == 0 && |own| != 0 {
      return None;
    }
    if o.inbound.template == None {
      return None;
    }
    link := Some(TemplateLink(o.inbound.template.value, effective));
  }

  /** The template links of build_registry_config. */
  method BuildTemplateLinks(nodes: seq<Node>) returns (links: seq<TemplateLink>)
    ensures links == Deployed(Offers(nodes))
  {
    links := [];
    ghost var done: seq<Offer> := [];
    for n := 0 to |nodes|
      invariant done == Offers(nodes[..n]) && links == Deployed(done)
    {
      var node := nodes[n];
      ghost var before := done;
      for i := 0 to |node.inbounds|
        invariant done == before + OffersOf(node.groups, node.inbounds[..i])
        invariant links == Deployed(done)
      {
        var o := Offer(node.groups, node.inbounds[i]);
        OfferAppends(before, node, i);
        assert (done + [o])[..|done|] == done;
        done := done + [o];
        var link := DeployOffer(o);
        if link.Some? {
          links := links + [link.value];
        }
      }
      NodeAppends(nodes, n, before);
      assert node.inbounds[..|node.inbounds|] == node.inbounds;
    }
    assert nodes[..|nodes|] == nodes;
  }

  /** build_registry_config and registry_accounts. */
  method BuildRegistryConfig(s: State) returns (config: RegistryConfig)
    ensures config == DeployedConfig(s)
  {
    var accounts: seq<Account> := [];
    for i := 0 to |s.accounts|
      invariant accounts == DeployedConfig(s).accounts[..i]
    {
      var groups := NormalizeGroups(s.accounts[i].groups);
      accounts := accounts + [s.accounts[i].(groups := groups)];
    }
    var links := BuildTemplateLinks(s.nodes);
    config := RegistryConfig(accounts, links);
  }

  // ---------- the registry's operations ----------

  /** normalizeGroups. */
  method NormalizeInOrder(values: seq<string>) returns (groups: seq<string>)
    ensures groups == FirstGroups(values)
  {
    groups := [];
    var seen: set<string> := {};
    for i := 0 to |values|
      invariant groups == FirstGroups(values[..i]) && seen == Elements(groups)
    {
      assert values[..i + 1][..i] == values[..i];
      var value := Trim(values[i]);
      if value == "" {
        continue;
      }
      if value in seen {
        assert value in Elements(groups);
        continue;
      }
      assert value !in groups;
      ElementsAppend(groups, value);
      seen := seen + {value};
      groups := groups + [value];
    }
    assert values[..|values|] == values;
  }

  /** groupsIntersect. */
  method Intersects(account: seq<string>, template: seq<string>) returns (r: bool)
    ensures r == RegistryIntersects(account, template)
  {
    var accountSet := NormalizeInOrder(account);
    var templateSet := NormalizeInOrder(template);
    FirstGroupsMeaning(account);
    FirstGroupsMeaning(template);
    if |templateSet| == 0 {
      return true;
    }
    assert templateSet[0] in Elements(templateSet);
    for i := 0 to |accountSet|
      invariant forall g :: g in accountSet[..i] ==> g !in templateSet
    {
      assert accountSet[..i + 1] == accountSet[..i] + [accountSet[i]];
      if accountSet[i] in templateSet {
        assert accountSet[i] in Elements(accountSet) * Elements(templateSet);
        return true;
      }
    }
    assert accountSet[..|accountSet|] == accountSet;
    forall g ensures g !in GroupSet(account) * GroupSet(template) {
      assert g in GroupSet(account) ==> g in Elements(accountSet);
      assert g in GroupSet(template) ==> g in Elements(templateSet);
    }
    assert GroupSet(account) * GroupSet(template) == {};
    r := false;
  }

  /** buildSubscriptionLinks. */
  method BuildSubscriptionLinks(templates: seq<TemplateLink>, a: Account) returns (links: seq<string>)
    ensures links == Served(templates, a)
    ensures forall pieces :: SpellsLinks(pieces, templates) ==> links == ServedList(templates, pieces, a)
  {
    links := [];
    var seen: set<string> := {};
    for i := 0 to |templates|
      invariant links == Served(templates[..i], a) && seen == Elements(links)
    {
      assert templates[..i + 1][..i] == templates[..i];
      var shared := Intersects(a.groups, templates[i].groups);
      if !shared {
        continue;
      }
      var template := Trim(templates[i].template);
      if template == "" {
        continue;
      }
      var link := RenderAtOnce(template, WithDisplayName(ValuesOf(a)));
      if Trim(link) == "" {
        continue;
      }
      if link in seen {
        assert link in Elements(links);
        continue;
      }
      assert link !in links;
      ElementsAppend(links, link);
      seen := seen + {link};
      links := links + [link];
    }
    assert templates[..|templates|] == templates;
    forall pieces | SpellsLinks(pieces, templates) ensures links == ServedList(templates, pieces, a) {
      ServedMeaning(templates, pieces, a);
    }
  }
}
