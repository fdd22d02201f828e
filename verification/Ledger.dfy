/** The traffic ledger of node/internal/engine/metrics.go: raw counters that may reset or vanish are
    turned into deltas and added to per-source aggregates, to totals and to the hourly history. */
module Ledger {
  import opened Common
  import Hourly

  datatype Traffic = Traffic(rx: Uint64, tx: Uint64)
  const ZERO: Traffic := Traffic(0, 0)

  datatype AccountMetric = AccountMetric(traffic: Traffic, online: nat)
  datatype OutboundMetric = OutboundMetric(kind: string, excluded: bool, traffic: Traffic)

  datatype InboundReport = InboundReport(name: string, traffic: Option<Traffic>)
  datatype AccountReport = AccountReport(id: string, online: nat, traffic: Option<Traffic>)
  datatype OutboundReport = OutboundReport(name: string, kind: string, excluded: bool, traffic: Option<Traffic>)

  /** What one engine answers to GetMetrics. An engine that answers with an error is absent; an Xray engine
      whose statistics cannot be read answers with zeros, for all of its sources or for single counters. */
  datatype Snapshot = Snapshot(name: string, inbounds: seq<InboundReport>, accounts: seq<AccountReport>,
      outbounds: seq<OutboundReport>)

  datatype Connections = Connections(tcp: nat, udp: nat)

  function Plus(a: Traffic, d: Traffic): Traffic {
    Traffic(Add64(a.rx, d.rx), Add64(a.tx, d.tx))
  }

  // ---------- one counter ----------

  /** How much a counter is taken to have grown: after a decrease it must have restarted from zero. */
  function Growth(prev: nat, current: nat): nat {
    if current >= prev then current - prev else current
  }

  /** The delta of a reading; the first reading of a source only sets the baseline. */
  function Delta(prev: Option<Traffic>, current: Option<Traffic>): Traffic {
    if prev.None? || current.None? then ZERO
    else Traffic(Growth(prev.value.rx, current.value.rx), Growth(prev.value.tx, current.value.tx))
  }

  // ---------- the books ----------

  datatype Books = Books(
    inbounds: map<string, Traffic>,
    accounts: map<string, AccountMetric>,
    outbounds: map<string, OutboundMetric>,
    totalIn: Traffic,
    totalOut: Traffic,
    lastRaw: map<string, Traffic>)

  /** What one sampling pass accumulates for the hourly history. */
  datatype Tally = Tally(rx: Uint64, tx: Uint64, speed: Hourly.Speed,
                         activeInbounds: set<string>, activeUsers: set<string>, seen: set<string>)

  datatype Work = Work(books: Books, tally: Tally)

  datatype Report =
    | Inbound(engine: string, inbound: InboundReport)
    | Account(engine: string, account: AccountReport)
    | Outbound(engine: string, outbound: OutboundReport)

  const EMPTY_TALLY: Tally := Tally(0, 0, 0.0, {}, {}, {})

  function SourceKey(r: Report): string {
    match r
    case Inbound(engine, i) => "inbound:" + engine + ":" + i.name
    case Account(engine, a) => "account:" + engine + ":" + Trim(a.id)
    case Outbound(engine, o) => "outbound:" + engine + ":" + o.name
  }

  function Reading(r: Report): Option<Traffic> {
    match r
    case Inbound(_, i) => i.traffic
    case Account(_, a) => a.traffic
    case Outbound(_, o) => o.traffic
  }

  /** Accounts whose id is blank are skipped altogether. */
  predicate Skipped(r: Report) {
    r.Account? && Trim(r.account.id) == ""
  }

  function Add32(a: nat, b: nat): nat {
    (a + b) % 0x1_0000_0000
  }

  function Moved(d: Traffic): bool {
    d.rx > 0 || d.tx > 0
  }

  function HalfOf(d: Traffic): Hourly.Speed {
    Add64(d.rx, d.tx) as real / 2.0
  }

  function Remember(lastRaw: map<string, Traffic>, r: Report): map<string, Traffic> {
    if Reading(r).Some? then lastRaw[SourceKey(r) := Reading(r).value] else lastRaw
  }

  /** The effect of one report on the books and on the tally. */
  function Step(w: Work, r: Report): Work {
    if Skipped(r) then w else
      var b, t := w.books, w.tally;
      var d := Delta(Get(b.lastRaw, SourceKey(r)), Reading(r));
      var raw, seen := Remember(b.lastRaw, r), t.seen + {SourceKey(r)};
      match r
      case Inbound(_, i) =>
        Work(b.(inbounds := b.inbounds[i.name := Plus(GetOr(b.inbounds, i.name, ZERO), d)],
          totalIn := Plus(b.totalIn, d), lastRaw := raw),
             t.(rx := Add64(t.rx, Add64(d.rx, d.tx)), speed := t.speed + HalfOf(d),
                activeInbounds := t.activeInbounds + (if Moved(d) then {i.name} else {}), seen := seen))
      case Account(_, a) =>
        var id := Trim(a.id);
        var was := GetOr(b.accounts, id, AccountMetric(ZERO, 0));
        var sum := Add32(was.online, a.online);
        var online := if sum == 0 && Moved(d) then 1 else sum;
        Work(b.(accounts := b.accounts[id := AccountMetric(Plus(was.traffic, d), online)], lastRaw := raw),
             t.(activeUsers := t.activeUsers + (if online > 0 || Moved(d) then {id} else {}), seen := seen))
      case Outbound(_, o) =>
        var was := GetOr(b.outbounds, o.name, OutboundMetric("", false, ZERO)).traffic;
        var b' := b.(outbounds := b.outbounds[o.name := OutboundMetric(o.kind, o.excluded, Plus(was, d))],
          lastRaw := raw);
        if o.excluded then Work(b', t.(seen := seen))
        else Work(b'.(totalOut := Plus(b.totalOut, d)),
                  t.(tx := Add64(t.tx, Add64(d.rx, d.tx)), speed := t.speed + HalfOf(d), seen := seen))
  }

  function Steps(w: Work, reports: seq<Report>): Work {
    if reports == [] then w else Step(Steps(w, reports[..|reports| - 1]), reports[|reports| - 1])
  }

  /** All reports of a list of snapshots, in the order in which they are read. */
  function Reports(snapshots: seq<Snapshot>): seq<Report> {
    if snapshots == [] then [] else
      var s := snapshots[|snapshots| - 1];
      Reports(snapshots[..|snapshots| - 1])
      + InboundReports(s.name, s.inbounds) + AccountReports(s.name, s.accounts) + OutboundReports(s.name, s.outbounds)
  }

  function InboundReports(engine: string, rs: seq<InboundReport>): seq<Report> {
    if rs == [] then [] else InboundReports(engine, rs[..|rs| - 1]) + [Inbound(engine, rs[|rs| - 1])]
  }

  function AccountReports(engine: string, rs: seq<AccountReport>): seq<Report> {
    if rs == [] then [] else AccountReports(engine, rs[..|rs| - 1]) + [Account(engine, rs[|rs| - 1])]
  }

  function OutboundReports(engine: string, rs: seq<OutboundReport>): seq<Report> {
    if rs == [] then [] else OutboundReports(engine, rs[..|rs| - 1]) + [Outbound(engine, rs[|rs| - 1])]
  }

  function OfflineAccounts(accounts: map<string, AccountMetric>): map<string, AccountMetric> {
    map id | id in accounts :: accounts[id].(online := 0)
  }

  function Start(b: Books): Work {
    Work(b.(accounts := OfflineAccounts(b.accounts)), EMPTY_TALLY)
  }

  /** Sources not reported in this pass are forgotten. */
  function Pruned(w: Work): Work {
    w.(books := w.books.(lastRaw := map k | k in w.books.lastRaw && k in w.tally.seen :: w.books.lastRaw[k]))
  }

  predicate Busy(c: Connections) {
    c.tcp > 0 || c.udp > 0
  }

  /** Polled connections create a zero aggregate where there is none and count as activity. */
  function PolledFor(w: Work, connections: map<string, Connections>, names: set<string>): Work
    requires names <= connections.Keys
  {
    Work(w.books.(inbounds := (map n | n in names :: ZERO) + w.books.inbounds),
         w.tally.(activeInbounds := w.tally.activeInbounds + set n | n in names && Busy(connections[n])))
  }

  function Polled(w: Work, connections: map<string, Connections>): Work {
    PolledFor(w, connections, connections.Keys)
  }

  datatype Tick = Tick(snapshots: seq<Snapshot>, connections: map<string, Connections>, now: int)

  /** A whole sampling pass. */
  function Sampled(b: Books, tick: Tick): Work {
    Polled(Pruned(Steps(Start(b), Reports(tick.snapshots))), tick.connections)
  }

  function HourlySample(t: Tally, now: int): Hourly.Sample {
    Hourly.Sample(now, t.speed, t.rx, t.tx, |t.activeUsers|, |t.activeInbounds|)
  }

  // ---------- conservation ----------

  datatype Direction = Rx | Tx

  function Part(t: Traffic, dir: Direction): Uint64 {
    if dir.Rx? then t.rx else t.tx
  }

  ghost function InboundParts(m: map<string, Traffic>, dir: Direction): map<string, Uint64> {
    map n | n in m :: Part(m[n], dir)
  }

  ghost function CountedPart(o: OutboundMetric, dir: Direction): Uint64 {
    if o.excluded then 0 else Part(o.traffic, dir)
  }

  ghost function CountedParts(m: map<string, OutboundMetric>, dir: Direction): map<string, Uint64> {
    map n | n in m :: CountedPart(m[n], dir)
  }

  /** The inbound total is the sum of all inbound aggregates. */
  ghost predicate InboundBalanced(b: Books) {
    && b.totalIn.rx == Sum64(InboundParts(b.inbounds, Rx))
    && b.totalIn.tx == Sum64(InboundParts(b.inbounds, Tx))
  }

  /** The outbound total is the sum of the aggregates that are not excluded. */
  ghost predicate OutboundBalanced(b: Books) {
    && b.totalOut.rx == Sum64(CountedParts(b.outbounds, Rx))
    && b.totalOut.tx == Sum64(CountedParts(b.outbounds, Tx))
  }

  /** A report keeps the exclusion flag that is already recorded for its outbound. */
  predicate Steady(b: Books, r: Report) {
    r.Outbound? && r.outbound.name in b.outbounds ==> b.outbounds[r.outbound.name].excluded == r.outbound.excluded
  }

  lemma InboundGrows(m: map<string, Traffic>, n: string, d: Traffic, dir: Direction)
    ensures Sum64(InboundParts(m[n := Plus(GetOr(m, n, ZERO), d)], dir)) ==
              Add64(Sum64(InboundParts(m, dir)), Part(d, dir))
  {
    var parts := InboundParts(m, dir);
    SumAfterAdd(parts, n, Part(d, dir));
    assert InboundParts(m[n := Plus(GetOr(m, n, ZERO), d)], dir)
        == parts[n := Add64(if n in parts then parts[n] else 0, Part(d, dir))];
  }

  lemma StepKeepsInboundBalance(w: Work, r: Report)
    requires InboundBalanced(w.books)
    ensures InboundBalanced(Step(w, r).books)
  {
    if r.Inbound? {
      var d := Delta(Get(w.books.lastRaw, SourceKey(r)), r.inbound.traffic);
      InboundGrows(w.books.inbounds, r.inbound.name, d, Rx);
      InboundGrows(w.books.inbounds, r.inbound.name, d, Tx);
    }
  }

  /** Replacing one outbound's metric moves the counted sum by exactly that metric's counted part. */
  lemma OutboundMoves(m: map<string, OutboundMetric>, n: string, was: OutboundMetric, now: OutboundMetric,
      dir: Direction)
    requires if n in m then was == m[n] else was.traffic == ZERO
    ensures Add64(Sum64(CountedParts(m[n := now], dir)), CountedPart(was, dir)) ==
              Add64(Sum64(CountedParts(m, dir)), CountedPart(now, dir))
  {
    var parts := CountedParts(m, dir);
    SumAfterUpdate(parts, n, CountedPart(now, dir));
    assert CountedParts(m[n := now], dir) == parts[n := CountedPart(now, dir)];
    if n in m {
      SumTakesOut(parts, n);
    }
  }

  /** One direction of an outbound report: the gap between total and sum stays closed exactly when the
      flag is steady or the aggregate is still zero in that direction. */
  lemma OutboundGap(m: map<string, OutboundMetric>, total: Uint64, n: string, was: OutboundMetric, now: OutboundMetric,
      d: Traffic, dir: Direction)
    requires if n in m then was == m[n] else was.traffic == ZERO
    requires now.traffic == Plus(was.traffic, d)
    requires total == Sum64(CountedParts(m, dir))
    ensures (if now.excluded then total else Add64(total, Part(d, dir))) == Sum64(CountedParts(m[n := now], dir))
            <==> was.excluded == now.excluded || Part(was.traffic, dir) == 0
  {
    OutboundMoves(m, n, was, now, dir);
  }

  /** Conservation of the outbound total survives a report exactly when the exclusion flag is the
      recorded one, or the outbound has no traffic yet. */
  lemma OutboundBalanceExactly(w: Work, r: Report)
    requires OutboundBalanced(w.books) && r.Outbound?
    ensures OutboundBalanced(Step(w, r).books)
            <==> Steady(w.books, r) || w.books.outbounds[r.outbound.name].traffic == ZERO
  {
    var b, o := w.books, r.outbound;
    var d := Delta(Get(b.lastRaw, SourceKey(r)), o.traffic);
    var was := GetOr(b.outbounds, o.name, OutboundMetric("", o.excluded, ZERO));
    var now := OutboundMetric(o.kind, o.excluded, Plus(was.traffic, d));
    OutboundGap(b.outbounds, b.totalOut.rx, o.name, was, now, d, Rx);
    OutboundGap(b.outbounds, b.totalOut.tx, o.name, was, now, d, Tx);
    assert Step(w, r).books.outbounds == b.outbounds[o.name := now];
  }

  /** A report that does not disturb the outbound total: it is not about an outbound, or keeps the recorded
      flag, or its outbound has no traffic yet. */
  predicate Harmless(b: Books, r: Report) {
    Steady(b, r) || (r.Outbound? && r.outbound.name in b.outbounds && b.outbounds[r.outbound.name].traffic == ZERO)
  }

  lemma HarmlessExactly(w: Work, r: Report)
    requires OutboundBalanced(w.books)
    ensures OutboundBalanced(Step(w, r).books) <==> Harmless(w.books, r)
  {
    if r.Outbound? {
      OutboundBalanceExactly(w, r);
    }
  }

  ghost predicate AllHarmless(w: Work, reports: seq<Report>) {
    reports == [] || (AllHarmless(w, reports[..|reports| - 1])
                      && Harmless(Steps(w, reports[..|reports| - 1]).books, reports[|reports| - 1]))
  }

  /** The outbound total is right after every single report. */
  ghost predicate StaysBalanced(w: Work, reports: seq<Report>) {
    OutboundBalanced(Steps(w, reports).books) && (reports == [] || StaysBalanced(w, reports[..|reports| - 1]))
  }

  lemma {:induction false} StaysBalancedExactly(w: Work, reports: seq<Report>)
    requires OutboundBalanced(w.books)
    ensures StaysBalanced(w, reports) <==> AllHarmless(w, reports)
    ensures AllHarmless(w, reports) ==> OutboundBalanced(Steps(w, reports).books)
  {
    if reports != [] {
      var front, last := reports[..|reports| - 1], reports[|reports| - 1];
      StaysBalancedExactly(w, front);
      if StaysBalanced(w, front) {
        HarmlessExactly(Steps(w, front), last);
      }
    }
  }

  lemma {:induction false} StepsKeepInboundBalance(w: Work, reports: seq<Report>)
    requires InboundBalanced(w.books)
    ensures InboundBalanced(Steps(w, reports).books)
  {
    if reports != [] {
      StepsKeepInboundBalance(w, reports[..|reports| - 1]);
      StepKeepsInboundBalance(Steps(w, reports[..|reports| - 1]), reports[|reports| - 1]);
    }
  }

  function Combined(t: Traffic): Uint64 {
    Add64(t.rx, t.tx)
  }

  lemma CombinedPlus(t: Traffic, d: Traffic)
    ensures Combined(Plus(t, d)) == Add64(Combined(t), Combined(d))
  {
  }

  lemma StepGrows(w: Work, r: Report) returns (g: Uint64)
    ensures Combined(Step(w, r).books.totalIn) == Add64(Combined(w.books.totalIn), g)
    ensures Step(w, r).tally.rx == Add64(w.tally.rx, g)
  {
    g := 0;
    if r.Inbound? {
      var d := Delta(Get(w.books.lastRaw, SourceKey(r)), r.inbound.traffic);
      g := Combined(d);
      CombinedPlus(w.books.totalIn, d);
    }
  }

  lemma GrowTogether(total: Uint64, tally: Uint64, total1: Uint64, tally1: Uint64, g: Uint64)
    requires Add64(total1, tally) == Add64(total, tally1)
    ensures Add64(Add64(total1, g), tally) == Add64(total, Add64(tally1, g))
  {
  }

  /** The traffic tallied for the hour is what the inbound total grew by. */
  lemma {:induction false} TallyIsGrowth(w: Work, reports: seq<Report>)
    ensures Add64(Combined(Steps(w, reports).books.totalIn), w.tally.rx)
         == Add64(Combined(w.books.totalIn), Steps(w, reports).tally.rx)
  {
    if reports != [] {
      var v := Steps(w, reports[..|reports| - 1]);
      TallyIsGrowth(w, reports[..|reports| - 1]);
      var g := StepGrows(v, reports[|reports| - 1]);
      GrowTogether(Combined(w.books.totalIn), w.tally.rx, Combined(v.books.totalIn), v.tally.rx, g);
    }
  }

  ghost predicate HarmlessTick(b: Books, tick: Tick) {
    AllHarmless(Start(b), Reports(tick.snapshots))
  }

  lemma PolledKeepsBalance(w: Work, connections: map<string, Connections>)
    requires InboundBalanced(w.books)
    ensures InboundBalanced(Polled(w, connections).books)
  {
    var m, m' := w.books.inbounds, Polled(w, connections).books.inbounds;
    SumIgnoresZeros(InboundParts(m, Rx), InboundParts(m', Rx));
    SumIgnoresZeros(InboundParts(m, Tx), InboundParts(m', Tx));
  }

  /** One sampling pass keeps the inbound total equal to the sum of the inbound aggregates. */
  lemma SampledKeepsInboundBalance(b: Books, tick: Tick)
    requires InboundBalanced(b)
    ensures InboundBalanced(Sampled(b, tick).books)
  {
    StepsKeepInboundBalance(Start(b), Reports(tick.snapshots));
    PolledKeepsBalance(Pruned(Steps(Start(b), Reports(tick.snapshots))), tick.connections);
  }

  /** It keeps the outbound total equal to the sum of the counted aggregates when its reports are harmless. */
  lemma SampledKeepsOutboundBalance(b: Books, tick: Tick)
    requires OutboundBalanced(b)
    ensures HarmlessTick(b, tick) <==> StaysBalanced(Start(b), Reports(tick.snapshots))
    ensures HarmlessTick(b, tick) ==> OutboundBalanced(Sampled(b, tick).books)
  {
    StaysBalancedExactly(Start(b), Reports(tick.snapshots));
  }

  lemma SampledTraffic(b: Books, tick: Tick)
    ensures Combined(Sampled(b, tick).books.totalIn) == Add64(Combined(b.totalIn), Sampled(b, tick).tally.rx)
  {
    TallyIsGrowth(Start(b), Reports(tick.snapshots));
  }

  /** The books after a run of ticks. */
  ghost function Run(b: Books, ticks: seq<Tick>): Books {
    if ticks == [] then b else Sampled(Run(b, ticks[..|ticks| - 1]), ticks[|ticks| - 1]).books
  }

  /** The hourly samples such a run records. */
  ghost function Recorded(b: Books, ticks: seq<Tick>): seq<Hourly.Sample> {
    if ticks == [] then [] else
      var front, last := ticks[..|ticks| - 1], ticks[|ticks| - 1];
      Recorded(b, front) + [HourlySample(Sampled(Run(b, front), last).tally, last.now)]
  }

  ghost predicate HarmlessRun(b: Books, ticks: seq<Tick>) {
    ticks == [] ||
      (HarmlessRun(b, ticks[..|ticks| - 1]) && HarmlessTick(Run(b, ticks[..|ticks| - 1]), ticks[|ticks| - 1]))
  }

  /** The outbound total is right after every report of every pass. */
  ghost predicate AlwaysBalanced(b: Books, ticks: seq<Tick>) {
    ticks == [] || (AlwaysBalanced(b, ticks[..|ticks| - 1])
                    && StaysBalanced(Start(Run(b, ticks[..|ticks| - 1])), Reports(ticks[|ticks| - 1].snapshots)))
  }

  /** Over every run the inbound total stays the sum of the inbound aggregates. */
  lemma {:induction false} InboundTotalConserved(b: Books, ticks: seq<Tick>)
    requires InboundBalanced(b)
    ensures InboundBalanced(Run(b, ticks))
  {
    if ticks != [] {
      InboundTotalConserved(b, ticks[..|ticks| - 1]);
      SampledKeepsInboundBalance(Run(b, ticks[..|ticks| - 1]), ticks[|ticks| - 1]);
    }
  }

  /** Over every run the outbound total is the sum of the counted aggregates after every report, exactly if no
      report flips the exclusion flag of an outbound that has traffic. */
  lemma {:induction false} OutboundTotalConserved(b: Books, ticks: seq<Tick>)
    requires OutboundBalanced(b)
    ensures AlwaysBalanced(b, ticks) <==> HarmlessRun(b, ticks)
    ensures HarmlessRun(b, ticks) ==> OutboundBalanced(Run(b, ticks))
  {
    if ticks != [] {
      var front, last := ticks[..|ticks| - 1], ticks[|ticks| - 1];
      OutboundTotalConserved(b, front);
      if HarmlessRun(b, front) {
        SampledKeepsOutboundBalance(Run(b, front), last);
      }
    }
  }

  lemma {:induction false} RecordedTraffic(b: Books, ticks: seq<Tick>)
    requires forall t :: t in ticks ==> t.now >= Hourly.SECONDS_PER_HOUR
    ensures Combined(Run(b, ticks).totalIn)
         == Add64(Combined(b.totalIn), Hourly.AllTraffic(Hourly.AsEntries(Recorded(b, ticks))))
  {
    if ticks != [] {
      var front, last := ticks[..|ticks| - 1], ticks[|ticks| - 1];
      RecordedTraffic(b, front);
      SampledTraffic(Run(b, front), last);
      var sample := HourlySample(Sampled(Run(b, front), last).tally, last.now);
      EntryTraffic(Recorded(b, front), sample);
    }
  }

  lemma EntryTraffic(samples: seq<Hourly.Sample>, x: Hourly.Sample)
    requires x.now >= Hourly.SECONDS_PER_HOUR
    ensures Hourly.AllTraffic(Hourly.AsEntries(samples + [x])) ==
              Add64(Hourly.AllTraffic(Hourly.AsEntries(samples)), x.rx)
  {
    assert (samples + [x])[..|samples|] == samples;
    var entries := Hourly.AsEntries(samples + [x]);
    assert entries[..|entries| - 1] == Hourly.AsEntries(samples);
    assert Hourly.Usable(Hourly.AsEntry(x));
  }

  lemma {:induction false} AllTrafficAppends(s: seq<Hourly.Entry>, t: seq<Hourly.Entry>)
    ensures Hourly.AllTraffic(s + t) == Add64(Hourly.AllTraffic(s), Hourly.AllTraffic(t))
  {
    if t == [] {
      assert s + t == s;
    } else {
      AllTrafficAppends(s, t[..|t| - 1]);
      assert (s + t)[..|s + t| - 1] == s + t[..|t| - 1];
    }
  }

  /** The ledger and the history agree, whatever totals and buckets they start from: the inbound traffic in
      the retained hour buckets plus that of the evicted hours has grown by what the inbound total, both
      directions together, has grown by. */
  lemma LedgerMatchesHistory(b: Books, start: seq<Hourly.Entry>, ticks: seq<Tick>)
    requires forall t :: t in ticks ==> t.now >= Hourly.SECONDS_PER_HOUR
    ensures var entries := start + Hourly.AsEntries(Recorded(b, ticks));
            var groups := Hourly.Group(entries);
            && Hourly.Streamed(start, Recorded(b, ticks)) == Hourly.InOrder(Hourly.Latest(groups))
            && Add64(Combined(b.totalIn),
                     Add64(Sum64(Hourly.TrafficIn(Hourly.Latest(groups))),
                       Hourly.TrafficOf(entries, Hourly.Top(groups.Keys), true)))
               == Add64(Hourly.AllTraffic(start), Combined(Run(b, ticks).totalIn))
  {
    var added := Hourly.AsEntries(Recorded(b, ticks));
    RecordedTraffic(b, ticks);
    AllTrafficAppends(start, added);
    Hourly.HistoryConserves(start + added);
    Hourly.StreamedIsNormal(start, Recorded(b, ticks));
    Add64Swaps(Combined(b.totalIn), Hourly.AllTraffic(start), Hourly.AllTraffic(added));
  }

  // ---------- what a source is remembered by ----------

  /** The baseline of one key after some reports. */
  function LastReading(prev: Option<Traffic>, reports: seq<Report>, key: string): Option<Traffic> {
    if reports == [] then prev else
      var r := reports[|reports| - 1];
      if !Skipped(r) && SourceKey(r) == key && Reading(r).Some? then Reading(r)
      else LastReading(prev, reports[..|reports| - 1], key)
  }

  predicate Mentioned(reports: seq<Report>, key: string) {
    exists r :: r in reports && !Skipped(r) && SourceKey(r) == key
  }

  lemma StepBaseline(w: Work, r: Report, key: string)
    ensures Get(Step(w, r).books.lastRaw, key)
         == if !Skipped(r) && SourceKey(r) == key && Reading(r).Some? then Reading(r) else Get(w.books.lastRaw, key)
    ensures key in Step(w, r).tally.seen <==> key in w.tally.seen || (!Skipped(r) && SourceKey(r) == key)
  {
  }

  lemma {:induction false} StepsBaseline(w: Work, reports: seq<Report>, key: string)
    ensures Get(Steps(w, reports).books.lastRaw, key) == LastReading(Get(w.books.lastRaw, key), reports, key)
    ensures key in Steps(w, reports).tally.seen <==> key in w.tally.seen || Mentioned(reports, key)
  {
    if reports != [] {
      var front, last := reports[..|reports| - 1], reports[|reports| - 1];
      StepsBaseline(w, front, key);
      StepBaseline(Steps(w, front), last, key);
      MentionedAppends(front, last, key);
      assert reports == front + [last];
    }
  }

  lemma MentionedAppends(front: seq<Report>, last: Report, key: string)
    ensures Mentioned(front + [last], key) <==> Mentioned(front, key) || (!Skipped(last) && SourceKey(last) == key)
  {
    assert forall r :: r in front + [last] <==> r in front || r == last;
  }

  /** After a pass a source is remembered by its last reading, and only if the pass mentioned it:
      a missed poll makes the next reading a new baseline. */
  lemma BaselineAfterPass(b: Books, tick: Tick, key: string)
    ensures Get(Sampled(b, tick).books.lastRaw, key)
            == if Mentioned(Reports(tick.snapshots), key)
               then LastReading(Get(b.lastRaw, key), Reports(tick.snapshots), key) else None
  {
    StepsBaseline(Start(b), Reports(tick.snapshots), key);
  }

  // ---------- what a pass records ----------

  /** What a report is credited with after the reports before it in its pass: how far its counter has risen over the
      last reading of its source, or the whole counter after a fall. */
  ghost function CreditAfter(b: Books, before: seq<Report>, r: Report): Traffic {
    var last, now := LastReading(Get(b.lastRaw, SourceKey(r)), before, SourceKey(r)), Reading(r);
    if last.None? || now.None? then Traffic(0, 0)
    else Traffic(if now.value.rx < last.value.rx then now.value.rx else now.value.rx - last.value.rx,
                 if now.value.tx < last.value.tx then now.value.tx else now.value.tx - last.value.tx)
  }

  ghost predicate CreditedAt(b: Books, reports: seq<Report>, i: nat)
    requires i < |reports|
  {
    CreditAfter(b, reports[..i], reports[i]) != Traffic(0, 0)
  }

  /** Report i shows a user: it names an account that is online or was credited. */
  ghost predicate ShowsUser(b: Books, reports: seq<Report>, i: nat)
    requires i < |reports|
  {
    reports[i].Account? && Trim(reports[i].account.id) != "" &&
    (reports[i].account.online % 0x1_0000_0000 > 0 || CreditedAt(b, reports, i))
  }

  ghost function ActiveUsers(b: Books, reports: seq<Report>): set<string> {
    set i | 0 <= i < |reports| && ShowsUser(b, reports, i) :: Trim(reports[i].account.id)
  }

  ghost function CreditedInbounds(b: Books, reports: seq<Report>): set<string> {
    set i | 0 <= i < |reports| && reports[i].Inbound? && CreditedAt(b, reports, i) :: reports[i].inbound.name
  }

  /** The bytes credited to inbounds and to counted outbounds, per second of a pass of two seconds. */
  ghost function CreditedSpeed(b: Books, reports: seq<Report>): Hourly.Speed {
    if reports == [] then 0.0 else
      var front, last := reports[..|reports| - 1], reports[|reports| - 1];
      var d := CreditAfter(b, front, last);
      CreditedSpeed(b, front) +
      if last.Inbound? || (last.Outbound? && !last.outbound.excluded)
      then ((d.rx + d.tx) % 0x1_0000_0000_0000_0000) as real / 2.0 else 0.0
  }

  /** The inbounds with open connections. */
  ghost function Connected(connections: map<string, Connections>): set<string> {
    set n | n in connections && (connections[n].tcp > 0 || connections[n].udp > 0)
  }

  /** How far a total has grown, both directions together, modulo 2^64. */
  ghost function GrownBy(before: Traffic, after: Traffic): Uint64 {
    (after.rx + after.tx - before.rx - before.tx) % 0x1_0000_0000_0000_0000
  }

  lemma EarlierReports(b: Books, front: seq<Report>, last: Report)
    ensures forall i :: 0 <= i < |front| ==> (CreditedAt(b, front + [last], i) <==> CreditedAt(b, front, i))
    ensures CreditedAt(b, front + [last], |front|) <==> CreditAfter(b, front, last) != Traffic(0, 0)
  {
    var reports := front + [last];
    assert reports[..|front|] == front;
    forall i | 0 <= i < |front| ensures CreditedAt(b, reports, i) <==> CreditedAt(b, front, i) {
      assert reports[..i] == front[..i];
    }
  }

  lemma ActivityAppends(b: Books, front: seq<Report>, last: Report)
    ensures CreditedInbounds(b, front + [last]) == CreditedInbounds(b, front) +
              if last.Inbound? && CreditAfter(b, front, last) != Traffic(0, 0) then {last.inbound.name} else {}
    ensures ActiveUsers(b, front + [last]) == ActiveUsers(b, front) +
              if ShowsUser(b, front + [last], |front|) then {Trim(last.account.id)} else {}
  {
    hide CreditAfter, CreditedAt, Trim;
    EarlierReports(b, front, last);
    var reports, n := front + [last], |front|;
    assert reports[n] == last && forall i :: 0 <= i < n ==> reports[i] == front[i];
    forall x
      ensures x in CreditedInbounds(b, reports) <==>
                (x in CreditedInbounds(b, front) ||
                 (last.Inbound? && CreditAfter(b, front, last) != Traffic(0, 0) && x == last.inbound.name))
    {
      if x in CreditedInbounds(b, reports) {
        var i :| 0 <= i < |reports| && reports[i].Inbound? && CreditedAt(b, reports, i) && reports[i].inbound.name == x;
        assert i < n ==> front[i].Inbound? && CreditedAt(b, front, i) && front[i].inbound.name == x;
      }
      if x in CreditedInbounds(b, front) {
        var i :| 0 <= i < |front| && front[i].Inbound? && CreditedAt(b, front, i) && front[i].inbound.name == x;
        assert reports[i].Inbound? && CreditedAt(b, reports, i) && reports[i].inbound.name == x;
      }
    }
    forall x
      ensures x in ActiveUsers(b, reports) <==>
                (x in ActiveUsers(b, front) || (ShowsUser(b, reports, n) && x == Trim(last.account.id)))
    {
      if x in ActiveUsers(b, reports) {
        var i :| 0 <= i < |reports| && ShowsUser(b, reports, i) && Trim(reports[i].account.id) == x;
        assert i < n ==> ShowsUser(b, front, i) && Trim(front[i].account.id) == x;
      }
      if x in ActiveUsers(b, front) {
        var i :| 0 <= i < |front| && ShowsUser(b, front, i) && Trim(front[i].account.id) == x;
        assert ShowsUser(b, reports, i) && Trim(reports[i].account.id) == x;
      }
    }
  }

  /** The tally after some reports of a pass. */
  ghost predicate Tallied(b: Books, w: Work, reports: seq<Report>) {
    && w.tally.speed == CreditedSpeed(b, reports)
    && w.tally.activeInbounds == CreditedInbounds(b, reports)
    && w.tally.activeUsers == ActiveUsers(b, reports)
    && w.tally.rx == GrownBy(b.totalIn, w.books.totalIn)
    && w.tally.tx == GrownBy(b.totalOut, w.books.totalOut)
    && OnlineTallied(w)
  }

  lemma WrapsOnce(a: Uint64, b: Uint64) returns (k: int)
    ensures Add64(a, b) == a + b - k * 0x1_0000_0000_0000_0000
  {
    k := if a + b < TWO_TO_THE_64 then 0 else 1;
  }

  lemma RemainderIs(x: int, r: Uint64, k: int)
    requires x == r + k * 0x1_0000_0000_0000_0000
    ensures x % 0x1_0000_0000_0000_0000 == r
  {
  }

  lemma GrowsMore(before: Traffic, after: Traffic, d: Traffic)
    ensures GrownBy(before, Plus(after, d)) == Add64(GrownBy(before, after), Add64(d.rx, d.tx))
  {
    hide Add64;
    var x, g := after.rx + after.tx - before.rx - before.tx, GrownBy(before, after);
    var i := WrapsOnce(after.rx, d.rx);
    var j := WrapsOnce(after.tx, d.tx);
    var k := WrapsOnce(d.rx, d.tx);
    var l := WrapsOnce(g, Add64(d.rx, d.tx));
    RemainderIs(x - i * TWO_TO_THE_64 - j * TWO_TO_THE_64 + d.rx + d.tx, Add64(g, Add64(d.rx, d.tx)),
                x / TWO_TO_THE_64 + k + l - i - j);
  }

  lemma CreditIsDelta(b: Books, before: seq<Report>, r: Report)
    ensures CreditAfter(b, before, r) == Delta(Get(Steps(Start(b), before).books.lastRaw, SourceKey(r)), Reading(r))
  {
    StepsBaseline(Start(b), before, SourceKey(r));
  }

  /** One report in the tally and the totals. */
  lemma StepTally(w: Work, r: Report)
    ensures var d, v := Delta(Get(w.books.lastRaw, SourceKey(r)), Reading(r)), Step(w, r);
            && v.books.totalIn == (if r.Inbound? then Plus(w.books.totalIn, d) else w.books.totalIn)
            && v.tally.rx == (if r.Inbound? then Add64(w.tally.rx, Add64(d.rx, d.tx)) else w.tally.rx)
            && v.tally.activeInbounds == w.tally.activeInbounds +
                 (if r.Inbound? && d != Traffic(0, 0) then {r.inbound.name} else {})
            && v.books.totalOut ==
                 (if r.Outbound? && !r.outbound.excluded then Plus(w.books.totalOut, d) else w.books.totalOut)
            && v.tally.tx ==
                 (if r.Outbound? && !r.outbound.excluded then Add64(w.tally.tx, Add64(d.rx, d.tx)) else w.tally.tx)
            && v.tally.speed == w.tally.speed +
                 (if r.Inbound? || (r.Outbound? && !r.outbound.excluded) then HalfOf(d) else 0.0)
  {
    hide Delta, SourceKey, Trim, Plus, Add64, HalfOf;
  }

  /** Whoever is online is in the tally. */
  ghost predicate OnlineTallied(w: Work) {
    forall id :: id in w.books.accounts && w.books.accounts[id].online > 0 ==> id in w.tally.activeUsers
  }

  lemma StepUsers(w: Work, r: Report)
    requires OnlineTallied(w)
    ensures var d := Delta(Get(w.books.lastRaw, SourceKey(r)), Reading(r));
            && Step(w, r).tally.activeUsers == w.tally.activeUsers +
                 (if r.Account? && Trim(r.account.id) != "" &&
                     (r.account.online % 0x1_0000_0000 > 0 || d != Traffic(0, 0))
                  then {Trim(r.account.id)} else {})
            && OnlineTallied(Step(w, r))
  {
    hide Delta, SourceKey, Trim, Plus;
    if r.Account? && Trim(r.account.id) in w.books.accounts {
      var was := w.books.accounts[Trim(r.account.id)].online;
      assert was == 0 || Trim(r.account.id) in w.tally.activeUsers;
    }
  }

  lemma HalfOfCredit(d: Traffic)
    ensures HalfOf(d) == ((d.rx + d.tx) % 0x1_0000_0000_0000_0000) as real / 2.0
  {
  }

  lemma TallyOne(b: Books, w: Work, front: seq<Report>, last: Report)
    requires Tallied(b, w, front)
    requires Delta(Get(w.books.lastRaw, SourceKey(last)), Reading(last)) == CreditAfter(b, front, last)
    ensures Tallied(b, Step(w, last), front + [last])
  {
    hide Step, LastReading, Delta, SourceKey, Trim, CreditAfter, GrownBy, Plus, CreditedInbounds, ActiveUsers, Add64,
      HalfOf, OnlineTallied;
    var d := CreditAfter(b, front, last);
    ActivityAppends(b, front, last);
    EarlierReports(b, front, last);
    assert (front + [last])[..|front|] == front;
    GrowsMore(b.totalIn, w.books.totalIn, d);
    GrowsMore(b.totalOut, w.books.totalOut, d);
    StepTally(w, last);
    StepUsers(w, last);
    HalfOfCredit(d);
  }

  lemma {:induction false} TalliedAll(b: Books, reports: seq<Report>)
    ensures Tallied(b, Steps(Start(b), reports), reports)
  {
    if reports != [] {
      var front, last := reports[..|reports| - 1], reports[|reports| - 1];
      TalliedAll(b, front);
      CreditIsDelta(b, front, last);
      TallyOne(b, Steps(Start(b), front), front, last);
      assert reports == front + [last];
    }
  }

  lemma EndOfPass(w: Work, connections: map<string, Connections>)
    ensures Polled(w, connections).tally
         == w.tally.(activeInbounds := w.tally.activeInbounds + Connected(connections))
    ensures Polled(w, connections).books.totalIn == w.books.totalIn
    ensures Polled(w, connections).books.totalOut == w.books.totalOut
  {
    assert (set n | n in connections.Keys && Busy(connections[n])) == Connected(connections);
  }

  lemma HourBegins(now: int)
    ensures Hourly.HourOf(now) == now - now % 3600
  {
  }

  /** What a pass records for its hour, from the books before and after it, its reports and its connections: the
      credited bytes per second, the growth of the two totals,
        the users shown and the inbounds credited or connected. */
  lemma PassRecords(b: Books, tick: Tick)
    ensures var reports, after := Reports(tick.snapshots), Sampled(b, tick).books;
            Hourly.AsEntry(HourlySample(Sampled(b, tick).tally, tick.now))
            == Some(Hourly.Bucket(tick.now - tick.now % 3600, CreditedSpeed(b, reports),
                                  GrownBy(b.totalIn, after.totalIn), GrownBy(b.totalOut, after.totalOut),
                                  |ActiveUsers(b, reports)|,
                                  |CreditedInbounds(b, reports) + Connected(tick.connections)|))
  {
    hide Steps, Reports, CreditedSpeed, ActiveUsers, CreditedInbounds, Connected, GrownBy, Polled, Hourly.HourOf;
    TalliedAll(b, Reports(tick.snapshots));
    EndOfPass(Pruned(Steps(Start(b), Reports(tick.snapshots))), tick.connections);
    HourBegins(tick.now);
  }

  /** The connections reported for an account in a pass. */
  ghost function OnlineSum(reports: seq<Report>, id: string): nat {
    if reports == [] then 0 else
      var r := reports[|reports| - 1];
      OnlineSum(reports[..|reports| - 1], id) + if r.Account? && Trim(r.account.id) == id then r.account.online else 0
  }

  /** Some report credits the account while no connection of it has been reported. */
  ghost predicate IdleCredit(b: Books, reports: seq<Report>, id: string) {
    reports != [] && (
      var front, r := reports[..|reports| - 1], reports[|reports| - 1];
      IdleCredit(b, front, id)
      || (r.Account? && Trim(r.account.id) == id && CreditAfter(b, front, r) != Traffic(0, 0) &&
          OnlineSum(reports, id) == 0))
  }

  lemma OnlineOne(w: Work, r: Report, id: string)
    requires id != ""
    ensures var was := GetOr(w.books.accounts, id, AccountMetric(ZERO, 0)).online;
            var d := Delta(Get(w.books.lastRaw, SourceKey(r)), Reading(r));
            GetOr(Step(w, r).books.accounts, id, AccountMetric(ZERO, 0)).online ==
            if !r.Account? || Trim(r.account.id) != id then was
            else if Add32(was, r.account.online) == 0 && d != ZERO then 1 else Add32(was, r.account.online)
  {
    hide Delta, SourceKey, Trim, Add32, Plus;
  }

  lemma {:induction false} OnlineAfter(b: Books, reports: seq<Report>, id: string)
    requires id != "" && OnlineSum(reports, id) < 0xFFFF_FFFF
    ensures GetOr(Steps(Start(b), reports).books.accounts, id, AccountMetric(ZERO, 0)).online
         == OnlineSum(reports, id) + if IdleCredit(b, reports, id) then 1 else 0
  {
    hide LastReading, Delta, SourceKey, Trim, CreditAfter, Plus, Step;
    if reports != [] {
      var front, r := reports[..|reports| - 1], reports[|reports| - 1];
      OnlineAfter(b, front, id);
      CreditIsDelta(b, front, r);
      OnlineOne(Steps(Start(b), front), r, id);
    }
  }

  /** After a pass an account shows the connections reported for it, from no memory of the pass before, and one more if
      it was credited while none had been reported. */
  lemma OnlineAfterPass(b: Books, tick: Tick, id: string)
    requires id != ""
    ensures var reports := Reports(tick.snapshots);
            OnlineSum(reports, id) < 0xFFFF_FFFF ==>
              GetOr(Sampled(b, tick).books.accounts, id, AccountMetric(ZERO, 0)).online
              == OnlineSum(reports, id) + if IdleCredit(b, reports, id) then 1 else 0
  {
    if OnlineSum(Reports(tick.snapshots), id) < 0xFFFF_FFFF {
      OnlineAfter(b, Reports(tick.snapshots), id);
    }
  }

  /** The last report of an outbound, if there is one. */
  ghost function LastOutbound(reports: seq<Report>, name: string): Option<OutboundReport> {
    if reports == [] then None else
      var r := reports[|reports| - 1];
      if r.Outbound? && r.outbound.name == name then Some(r.outbound)
      else LastOutbound(reports[..|reports| - 1], name)
  }

  lemma {:induction false} OutboundAfter(w: Work, reports: seq<Report>, name: string)
    ensures match LastOutbound(reports, name)
            case None => Get(Steps(w, reports).books.outbounds, name) == Get(w.books.outbounds, name)
            case Some(o) =>
              && name in Steps(w, reports).books.outbounds
              && Steps(w, reports).books.outbounds[name].kind == o.kind
              && Steps(w, reports).books.outbounds[name].excluded == o.excluded
  {
    hide Delta, SourceKey, Plus, Trim;
    if reports != [] {
      OutboundAfter(w, reports[..|reports| - 1], name);
    }
  }

  /** After a pass an outbound has the type and the exclusion flag of its last report, and one that was not reported is
      as before. */
  lemma OutboundAfterPass(b: Books, tick: Tick, name: string)
    ensures match LastOutbound(Reports(tick.snapshots), name)
            case None => Get(Sampled(b, tick).books.outbounds, name) == Get(b.outbounds, name)
            case Some(o) =>
              && name in Sampled(b, tick).books.outbounds
              && Sampled(b, tick).books.outbounds[name].kind == o.kind
              && Sampled(b, tick).books.outbounds[name].excluded == o.excluded
  {
    OutboundAfter(Start(b), Reports(tick.snapshots), name);
  }

  /** Sources are told apart by kind and, within an engine, by name; across engines whenever no engine name with its
      colon begins the other. */
  lemma SourcesApart(r: Report, s: Report)
    ensures SourceKey(r) == SourceKey(s) ==>
              r.Inbound? == s.Inbound? && r.Account? == s.Account? && r.Outbound? == s.Outbound?
    ensures r.Inbound? && s.Inbound? && r.engine == s.engine ==>
              (SourceKey(r) == SourceKey(s) <==> r.inbound.name == s.inbound.name)
    ensures r.Account? && s.Account? && r.engine == s.engine ==>
              (SourceKey(r) == SourceKey(s) <==> Trim(r.account.id) == Trim(s.account.id))
    ensures r.Outbound? && s.Outbound? && r.engine == s.engine ==>
              (SourceKey(r) == SourceKey(s) <==> r.outbound.name == s.outbound.name)
    ensures !(r.engine + ":" <= s.engine + ":") && !(s.engine + ":" <= r.engine + ":") ==>
              SourceKey(r) != SourceKey(s)
  {
    hide Trim;
    var kr, nr := KeyParts(r);
    var ks, ns := KeyParts(s);
    if SourceKey(r) == SourceKey(s) {
      assert SourceKey(r)[0] == SourceKey(s)[0];
      assert kr == ks;
      assert SourceKey(r)[|kr|..] == r.engine + ":" + nr && SourceKey(s)[|ks|..] == s.engine + ":" + ns;
      Headed(r.engine + ":", nr, s.engine + ":", ns);
    }
  }

  lemma KeyParts(r: Report) returns (kind: string, name: string)
    ensures kind == if r.Inbound? then "inbound:" else if r.Account? then "account:" else "outbound:"
    ensures name == if r.Inbound? then r.inbound.name else if r.Account? then Trim(r.account.id) else r.outbound.name
    ensures SourceKey(r) == kind + r.engine + ":" + name == kind + (r.engine + ":" + name)
  {
    kind := if r.Inbound? then "inbound:" else if r.Account? then "account:" else "outbound:";
    name := if r.Inbound? then r.inbound.name else if r.Account? then Trim(r.account.id) else r.outbound.name;
  }

  lemma Headed(a: string, x: string, b: string, y: string)
    requires a + x == b + y
    ensures a <= b || b <= a
    ensures a == b ==> x == y
  {
    if |a| <= |b| {
      assert a == (a + x)[..|a|] == (b + y)[..|a|] == b[..|a|];
    } else {
      assert b == (b + y)[..|b|] == (a + x)[..|b|] == a[..|b|];
    }
    assert x == (a + x)[|a|..] && y == (b + y)[|b|..];
  }

  // ---------- what a source is credited with ----------

  /** One source and its counter, with the ghost truth beside what the ledger sees.
      `truth` is the traffic since the source was first looked at and `pending` that since it was last read
      (or first looked at); `before` is the part of pending that an engine restart wiped off the counter;
      `blank` says that the baseline comes from a failed read. */
  datatype Source = Source(counter: nat, prev: Option<nat>, counted: nat, polled: bool, truth: nat, pending: nat,
                           wiped: bool, before: nat, blank: bool)

  /** A pass may read the counter (Poll), fail to read it and report zero (Blank), or not mention the source (Miss). */
  datatype Event = Use(n: nat) | Reset | Poll | Blank | Miss

  const NEW_SOURCE: Source := Source(0, None, 0, false, 0, 0, false, 0, false)

  /** What a reading would be credited with. */
  function Credit(s: Source, reading: nat): nat {
    if s.prev.Some? then Growth(s.prev.value, reading) else 0
  }

  function Happen(s: Source, e: Event): Source {
    match e
    case Use(n) =>
      s.(counter := s.counter + n, truth := if s.polled then s.truth + n else 0, pending := s.pending + n)
    case Reset =>
      s.(counter := 0, wiped := true, before := s.pending)
    case Poll =>
      s.(prev := Some(s.counter), counted := s.counted + Credit(s, s.counter),
         polled := true, pending := 0, wiped := false, before := 0, blank := false)
    case Blank =>
      var looked := s.(prev := Some(0), counted := s.counted + Credit(s, 0), blank := true);
      if s.polled then looked else looked.(polled := true, pending := 0, wiped := false, before := 0)
    case Miss =>
      s.(prev := None, blank := false)
  }

  function Play(s: Source, events: seq<Event>): Source {
    if events == [] then s else Happen(Play(s, events[..|events| - 1]), events[|events| - 1])
  }

  function After(events: seq<Event>): Source {
    Play(NEW_SOURCE, events)
  }

  ghost predicate Coherent(s: Source) {
    && (s.prev.Some? ==> s.polled)
    && s.before <= s.pending
    && (if s.wiped then s.pending == s.before + s.counter else s.pending <= s.counter)
    && (s.blank ==> s.prev == Some(0))
    && (!s.wiped && !s.blank && s.prev.Some? ==> s.counter == s.prev.value + s.pending)
    && (!s.polled ==> s.counted == 0 && s.truth == 0)
  }

  lemma {:induction false} AlwaysCoherent(events: seq<Event>)
    ensures Coherent(After(events))
  {
    if events != [] {
      AlwaysCoherent(events[..|events| - 1]);
    }
  }

  /** The last look failed, and since the last good one the counter has neither restarted nor stood at zero. */
  predicate Blinded(s: Source) {
    s.blank && !s.wiped && s.counter > s.pending
  }

  /** A poll credits more than what moved since the last one exactly when it follows a failed read of a counter
      that stood above zero: everything below is counted again. */
  lemma PollOverCreditsExactly(events: seq<Event>)
    ensures var s := After(events); Credit(s, s.counter) > s.pending <==> Blinded(s)
  {
    AlwaysCoherent(events);
  }

  /** What the polls of a run credited too much, and too little. */
  function Extra(events: seq<Event>): nat {
    if events == [] then 0 else
      var s := After(events[..|events| - 1]);
      Extra(events[..|events| - 1]) + if events[|events| - 1].Poll? && Blinded(s) then s.counter - s.pending else 0
  }

  function Lost(events: seq<Event>): nat {
    if events == [] then 0 else
      var s := After(events[..|events| - 1]);
      Lost(events[..|events| - 1])
      + if events[|events| - 1].Poll? && s.polled && Credit(s, s.counter) < s.pending
        then s.pending - Credit(s, s.counter) else 0
  }

  function Open(s: Source): nat {
    if s.polled then s.pending else 0
  }

  /** What was credited, lost and is still open is the truth and what was credited twice. */
  lemma {:induction false} CreditsBalance(events: seq<Event>)
    ensures After(events).counted + Lost(events) + Open(After(events)) == After(events).truth + Extra(events)
  {
    if events != [] {
      var front := events[..|events| - 1];
      CreditsBalance(front);
      AlwaysCoherent(front);
    }
  }

  /** Under any interleaving of traffic, restarts, good and failed reads and missed polls, the credit stays
      within the true traffic exactly if not more was credited twice than was lost or is still open. */
  lemma OverCountsExactly(events: seq<Event>)
    ensures After(events).counted <= After(events).truth <==> Extra(events) <= Lost(events) + Open(After(events))
  {
    CreditsBalance(events);
  }

  predicate NeverBlinded(events: seq<Event>) {
    events == [] || (
      var front := events[..|events| - 1];
      NeverBlinded(front) && (events[|events| - 1].Poll? ==> !Blinded(After(front))))
  }

  /** In particular the ledger never credits a source with more than it carried, as long as no poll follows a
      failed read of a counter that stood above zero and has not restarted. */
  lemma {:induction false} NeverOverCounts(events: seq<Event>)
    requires NeverBlinded(events)
    ensures After(events).counted <= After(events).truth && Extra(events) == 0
  {
    if events != [] {
      NeverOverCounts(events[..|events| - 1]);
    }
    OverCountsExactly(events);
  }

  /** The condition is needed: after any good poll, one failed read and another good poll credit the whole
      counter again. The readings 100, 150, 0 and 160 of a counter that never restarts are credited with
      50 + 160 although 60 has moved. */
  lemma FailedReadCountsTwice(events: seq<Event>, n: nat)
    requires events != [] && events[|events| - 1].Poll?
    ensures var s, t := After(events), After(events + [Blank, Use(n)] + [Poll]);
            t.counted == s.counted + s.counter + n && t.truth == s.truth + n
  {
    TwoMore(NEW_SOURCE, events, Blank, Use(n));
    PlayOne(NEW_SOURCE, events + [Blank, Use(n)], Poll);
  }

  lemma TwoMore(s: Source, events: seq<Event>, e: Event, f: Event)
    ensures Play(s, events + [e, f]) == Happen(Happen(Play(s, events), e), f)
  {
    hide Happen;
    PlayOne(s, events, e);
    PlayOne(s, events + [e], f);
    assert events + [e] + [f] == events + [e, f];
  }

  lemma PlayOne(s: Source, events: seq<Event>, e: Event)
    ensures Play(s, events + [e]) == Happen(Play(s, events), e)
  {
    assert (events + [e])[..|events|] == events;
  }

  lemma {:induction false} PlayAppends(s: Source, a: seq<Event>, b: seq<Event>)
    ensures Play(s, a + b) == Play(Play(s, a), b)
  {
    if b == [] {
      assert a + b == a;
    } else {
      var front, last := b[..|b| - 1], b[|b| - 1];
      PlayAppends(s, a, front);
      assert a + b == (a + front) + [last];
      PlayOne(s, a + front, last);
    }
  }

  /** A poll credits everything that was pending exactly when the baseline is known and no restart lost
      anything: either there was no restart, or nothing had moved since the last read before it and the
      counter has not yet climbed past a positive baseline. */
  predicate LosesNothing(s: Source) {
    if !s.polled then true
    else if s.prev.None? then s.pending == 0
    else !s.wiped || (s.before == 0 && (s.prev.value == 0 || s.counter < s.prev.value))
  }

  predicate PollsLoseNothing(events: seq<Event>) {
    events == [] || (
      var front := events[..|events| - 1];
      PollsLoseNothing(front) && (events[|events| - 1].Poll? ==> LosesNothing(After(front))))
  }

  lemma {:induction false} LostNothingExactly(events: seq<Event>)
    ensures Lost(events) == 0 <==> PollsLoseNothing(events)
  {
    if events != [] {
      LostNothingExactly(events[..|events| - 1]);
      AlwaysCoherent(events[..|events| - 1]);
    }
  }

  /** At a poll the aggregate is exact if and only if as much was credited twice as was lost; where nothing was
      credited twice, if and only if no poll so far lost anything. */
  lemma ExactlyCounted(events: seq<Event>)
    requires events != [] && events[|events| - 1].Poll?
    ensures After(events).counted == After(events).truth <==> Extra(events) == Lost(events)
    ensures NeverBlinded(events) ==> (After(events).counted == After(events).truth <==> PollsLoseNothing(events))
  {
    CreditsBalance(events);
    LostNothingExactly(events);
    if NeverBlinded(events) {
      NeverOverCounts(events);
    }
  }

  /** The first reading of the source. */
  function FirstReading(events: seq<Event>): Option<nat> {
    if events == [] then None else
      var front := events[..|events| - 1];
      if FirstReading(front).Some? then FirstReading(front)
      else if events[|events| - 1].Poll? then Some(After(front).counter) else None
  }

  /** Without restarts, failed reads and misses nothing is lost, and the aggregate is the last reading minus the
      first. */
  lemma {:induction false} SteadyCounting(events: seq<Event>)
    requires forall e :: e in events ==> e.Use? || e.Poll?
    ensures PollsLoseNothing(events) && !After(events).wiped && !After(events).blank
    ensures var s := After(events);
            match FirstReading(events)
            case None => !s.polled && s.counted == 0
            case Some(first) => s.prev.Some? && s.counted == s.prev.value - first
  {
    if events != [] {
      SteadyCounting(events[..|events| - 1]);
      AlwaysCoherent(events[..|events| - 1]);
    }
  }

  // ---------- the ledger credits what the counter model credits ----------

  /** Where the traffic of some sources is added up. */
  datatype Target = OfInbound(name: string) | OfAccount(id: string) | OfOutbound(name: string)

  predicate Feeds(r: Report, t: Target) {
    match t
    case OfInbound(name) => r.Inbound? && r.inbound.name == name
    case OfAccount(id) => r.Account? && !Skipped(r) && Trim(r.account.id) == id
    case OfOutbound(name) => r.Outbound? && r.outbound.name == name
  }

  function TargetTraffic(b: Books, t: Target): Traffic {
    match t
    case OfInbound(name) => GetOr(b.inbounds, name, ZERO)
    case OfAccount(id) => if id in b.accounts then b.accounts[id].traffic else ZERO
    case OfOutbound(name) => if name in b.outbounds then b.outbounds[name].traffic else ZERO
  }

  function Aggregate(b: Books, t: Target, dir: Direction): Uint64 {
    Part(TargetTraffic(b, t), dir)
  }

  function Baseline(b: Books, key: string, dir: Direction): Option<nat> {
    if key in b.lastRaw then Some(Part(b.lastRaw[key], dir)) else None
  }

  function Wrapped(n: nat): Uint64 {
    n % TWO_TO_THE_64
  }

  /** The sources that feed one target, by key: the same inbound, account or outbound in several engines. */
  type Sources = map<string, Source>

  function Counters(ss: Sources): map<string, nat> {
    map k | k in ss :: ss[k].counter
  }

  function Credits(ss: Sources): map<string, Uint64> {
    map k | k in ss :: Wrapped(ss[k].counted)
  }

  predicate Names(r: Report, key: string) {
    !Skipped(r) && SourceKey(r) == key
  }

  /** A report feeds the target exactly if it is about one of its sources, and then it shows the counter of that
      source, or zero after a failed read, or carries no traffic at all. */
  ghost predicate ShownBy(r: Report, counters: map<string, nat>, t: Target, dir: Direction) {
    && (Feeds(r, t) <==> !Skipped(r) && SourceKey(r) in counters)
    && (Feeds(r, t) && Reading(r).Some? ==>
          Part(Reading(r).value, dir) == counters[SourceKey(r)] || Part(Reading(r).value, dir) == 0)
  }

  ghost predicate Shown(reports: seq<Report>, counters: map<string, nat>, t: Target, dir: Direction) {
    forall r :: r in reports ==> ShownBy(r, counters, t, dir)
  }

  /** What a source goes through in one pass: one event per reading, or a miss if it is not mentioned. */
  function Look(r: Report, key: string, dir: Direction, counter: nat): seq<Event> {
    if !Names(r, key) || Reading(r).None? then [] else [if Part(Reading(r).value, dir) == counter then Poll else Blank]
  }

  function Looks(reports: seq<Report>, key: string, dir: Direction, counter: nat): seq<Event> {
    if reports == [] then [] else
      Looks(reports[..|reports| - 1], key, dir, counter) + Look(reports[|reports| - 1], key, dir, counter)
  }

  function PassEvents(reports: seq<Report>, key: string, dir: Direction, counter: nat): seq<Event> {
    if Mentioned(reports, key) then Looks(reports, key, dir, counter) else [Miss]
  }

  /** The world of the sources: their counters move or restart, and sampling passes look at them. */
  datatype Moment = Moves(source: string, n: nat) | Restarts(source: string) | Samples(tick: Tick)

  function EventsOf(m: Moment, key: string, dir: Direction, counter: nat): seq<Event> {
    match m
    case Moves(source, n) => if source == key then [Use(n)] else []
    case Restarts(source) => if source == key then [Reset] else []
    case Samples(tick) => PassEvents(Reports(tick.snapshots), key, dir, counter)
  }

  /** What one source goes through. */
  function History(moments: seq<Moment>, key: string, dir: Direction): seq<Event> {
    if moments == [] then [] else
      var front := History(moments[..|moments| - 1], key, dir);
      front + EventsOf(moments[|moments| - 1], key, dir, After(front).counter)
  }

  function SourcesAfter(moments: seq<Moment>, keys: set<string>, dir: Direction): Sources {
    map k | k in keys :: After(History(moments, k, dir))
  }

  function TicksOf(moments: seq<Moment>): seq<Tick> {
    if moments == [] then [] else OneMore(TicksOf(moments[..|moments| - 1]), moments[|moments| - 1])
  }

  function OneMore(ticks: seq<Tick>, m: Moment): seq<Tick> {
    if m.Samples? then ticks + [m.tick] else ticks
  }

  /** A pass looks at the source: some report about it carries a reading. */
  ghost predicate LooksAt(m: Moment, key: string) {
    m.Samples? && exists r :: r in Reports(m.tick.snapshots) && Names(r, key) && Reading(r).Some?
  }

  ghost predicate Looked(moments: seq<Moment>, key: string) {
    exists m :: m in moments && LooksAt(m, key)
  }

  /** The traffic that a source carried since it was first looked at. */
  ghost function Carried(moments: seq<Moment>, key: string): nat {
    if moments == [] then 0 else
      var front, last := moments[..|moments| - 1], moments[|moments| - 1];
      Carried(front, key) + if last.Moves? && last.source == key && Looked(front, key) then last.n else 0
  }

  /** The traffic that a source carried since it last restarted. */
  ghost function Standing(moments: seq<Moment>, key: string): nat {
    if moments == [] then 0 else
      var before, last := Standing(moments[..|moments| - 1], key), moments[|moments| - 1];
      if last.Moves? && last.source == key then before + last.n
      else if last == Restarts(key) then 0 else before
  }

  lemma {:induction false} LooksKeepTruth(s: Source, reports: seq<Report>, key: string, dir: Direction, counter: nat)
    ensures var s' := Play(s, Looks(reports, key, dir, counter));
            && s'.truth == s.truth && s'.counter == s.counter
            && (s'.polled <==> s.polled || exists r :: r in reports && Names(r, key) && Reading(r).Some?)
  {
    hide Names, Reading;
    if reports != [] {
      var front, last := reports[..|reports| - 1], reports[|reports| - 1];
      LooksKeepTruth(s, front, key, dir, counter);
      PlayAppends(s, Looks(front, key, dir, counter), Look(last, key, dir, counter));
      assert forall r :: r in reports <==> r in front || r == last;
      OneLookKeeps(Play(s, Looks(front, key, dir, counter)), last, key, dir, counter);
    }
  }

  lemma OneLookKeeps(s: Source, r: Report, key: string, dir: Direction, counter: nat)
    ensures var s' := Play(s, Look(r, key, dir, counter));
            && s'.truth == s.truth && s'.counter == s.counter
            && (s'.polled <==> s.polled || (Names(r, key) && Reading(r).Some?))
  {
    hide Names, Reading;
    if Look(r, key, dir, counter) != [] {
      var e := Look(r, key, dir, counter)[0];
      assert [e][..0] == [];
    }
  }

  lemma OneMomentKeeps(s: Source, m: Moment, key: string, dir: Direction)
    requires s.polled || s.truth == 0
    ensures var s' := Play(s, EventsOf(m, key, dir, s.counter));
            && s'.truth == s.truth + (if m.Moves? && m.source == key && s.polled then m.n else 0)
            && s'.counter == (if m.Moves? && m.source == key then s.counter + m.n
                              else if m == Restarts(key) then 0 else s.counter)
            && (s'.polled <==> s.polled || LooksAt(m, key))
  {
    hide Reading, Reports, Names;
    match m
    case Moves(source, n) =>
      assert [Use(n)][..0] == [];
      assert Play(s, [Use(n)]) == Happen(s, Use(n));
    case Restarts(source) =>
      assert [Reset][..0] == [];
      assert Play(s, [Reset]) == Happen(s, Reset);
    case Samples(tick) =>
      LooksKeepTruth(s, Reports(tick.snapshots), key, dir, s.counter);
      assert [Miss][..0] == [];
      NamesMentioned(Reports(tick.snapshots), key);
  }

  lemma NamesMentioned(reports: seq<Report>, key: string)
    ensures Mentioned(reports, key) <==> exists r :: r in reports && Names(r, key)
  {
  }

  /** The counter model of a source is about the traffic of that source: its counter stands at what was carried since
      the last restart, and the truth is what was carried since the first look. */
  lemma {:induction false} ModelIsTraffic(moments: seq<Moment>, key: string, dir: Direction)
    ensures var s := After(History(moments, key, dir));
            s.counter == Standing(moments, key) && s.truth == Carried(moments, key) &&
            (s.polled <==> Looked(moments, key))
  {
    hide LooksAt, EventsOf;
    if moments != [] {
      var front, last := moments[..|moments| - 1], moments[|moments| - 1];
      ModelIsTraffic(front, key, dir);
      var s, h := After(History(front, key, dir)), History(front, key, dir);
      PlayAppends(NEW_SOURCE, h, EventsOf(last, key, dir, s.counter));
      AlwaysCoherent(h);
      OneMomentKeeps(s, last, key, dir);
      assert forall m :: m in moments <==> m in front || m == last;
    }
  }

  /** Every pass sees the counters as they stand, or fails to read them. */
  ghost predicate Observed(moments: seq<Moment>, keys: set<string>, t: Target, dir: Direction) {
    moments == [] || (
      var front, last := moments[..|moments| - 1], moments[|moments| - 1];
      && Observed(front, keys, t, dir)
      && (last.Samples? ==> Shown(Reports(last.tick.snapshots), Counters(SourcesAfter(front, keys, dir)), t, dir)))
  }

  ghost predicate BaselinesFollow(b: Books, dir: Direction, ss: Sources) {
    forall k :: k in ss ==> Baseline(b, k, dir) == ss[k].prev
  }

  /** The ledger stands where the counter models stand. */
  ghost predicate Follows(b: Books, t: Target, dir: Direction, base: Uint64, ss: Sources) {
    BaselinesFollow(b, dir, ss) && Aggregate(b, t, dir) == Add64(base, Sum64(Credits(ss)))
  }

  lemma WrappedAdds(m: nat, n: Uint64)
    ensures Wrapped(m + n) == Add64(Wrapped(m), n)
  {
  }

  lemma DeltaPart(prev: Option<Traffic>, reading: Option<Traffic>, dir: Direction)
    ensures Part(Delta(prev, reading), dir)
            == if prev.Some? && reading.Some? then Growth(Part(prev.value, dir), Part(reading.value, dir)) else 0
  {
  }

  /** A report of a source adds its delta to the target, and a reading becomes the baseline. */
  lemma OwnStep(w: Work, r: Report, t: Target)
    requires Feeds(r, t)
    ensures var c, d := Step(w, r).books, Delta(Get(w.books.lastRaw, SourceKey(r)), Reading(r));
            && TargetTraffic(c, t) == Plus(TargetTraffic(w.books, t), d)
            && c.lastRaw == Remember(w.books.lastRaw, r)
  {
  }

  lemma OtherStep(w: Work, r: Report, t: Target)
    requires !Feeds(r, t)
    ensures TargetTraffic(Step(w, r).books, t) == TargetTraffic(w.books, t)
    ensures Step(w, r).books.lastRaw == if Skipped(r) then w.books.lastRaw else Remember(w.books.lastRaw, r)
  {
  }

  /** The sources after one report. */
  function LookedAt(ss: Sources, r: Report, dir: Direction): Sources {
    map k | k in ss :: Play(ss[k], Look(r, k, dir, ss[k].counter))
  }

  function Seen(reading: Uint64, counter: nat): Event {
    if reading == counter then Poll else Blank
  }

  lemma OneLook(s: Source, r: Report, key: string, dir: Direction)
    ensures Play(s, Look(r, key, dir, s.counter)) ==
            if Names(r, key) && Reading(r).Some? then Happen(s, Seen(Part(Reading(r).value, dir), s.counter)) else s
  {
    if Names(r, key) && Reading(r).Some? {
      var e := Seen(Part(Reading(r).value, dir), s.counter);
      PlayOne(s, [], e);
      assert [] + [e] == Look(r, key, dir, s.counter);
    }
  }

  lemma LookedAtOne(ss: Sources, r: Report, dir: Direction)
    ensures var key, looked := SourceKey(r), LookedAt(ss, r, dir);
            looked == if !Skipped(r) && key in ss && Reading(r).Some? then
                        ss[key := Happen(ss[key], Seen(Part(Reading(r).value, dir), ss[key].counter))]
                      else ss
    ensures Counters(LookedAt(ss, r, dir)) == Counters(ss)
  {
    hide SourceKey, Look, Happen, Play, Skipped, Reading;
    var key, looked := SourceKey(r), LookedAt(ss, r, dir);
    forall k | k in ss
      ensures looked[k] == if k == key && !Skipped(r) && Reading(r).Some?
                             then Happen(ss[k], Seen(Part(Reading(r).value, dir), ss[k].counter)) else ss[k]
      ensures looked[k].counter == ss[k].counter
    {
      OneLook(ss[k], r, k, dir);
      LookKeepsCounter(ss[k], if Reading(r).Some? then Seen(Part(Reading(r).value, dir), ss[k].counter) else Poll);
    }
  }

  lemma LookKeepsCounter(s: Source, e: Event)
    requires e.Poll? || e.Blank?
    ensures Happen(s, e).counter == s.counter
  {
  }

  /** One source is credited. */
  lemma CreditOne(ss: Sources, key: string, s: Source, d: Uint64)
    requires key in ss && s.counted == ss[key].counted + d
    ensures Sum64(Credits(ss[key := s])) == Add64(Sum64(Credits(ss)), d)
  {
    hide Wrapped, Add64;
    var m := Credits(ss);
    WrappedAdds(ss[key].counted, d);
    SumAfterAdd(m, key, d);
    assert Credits(ss[key := s]) == m[key := Add64(m[key], d)];
  }

  lemma OwnReportFollows(w: Work, r: Report, t: Target, dir: Direction, base: Uint64, ss: Sources)
    requires Follows(w.books, t, dir, base, ss) && Feeds(r, t) && SourceKey(r) in ss && Reading(r).Some?
    requires Part(Reading(r).value, dir) == ss[SourceKey(r)].counter || Part(Reading(r).value, dir) == 0
    ensures var key := SourceKey(r);
            Follows(Step(w, r).books, t, dir, base,
              ss[key := Happen(ss[key], Seen(Part(Reading(r).value, dir), ss[key].counter))])
  {
    hide SourceKey, Feeds, Step, Add64, TargetTraffic;
    var key, reading := SourceKey(r), Part(Reading(r).value, dir);
    var s, b, c := ss[key], w.books, Step(w, r).books;
    OwnStep(w, r, t);
    var d := Delta(Get(b.lastRaw, key), Reading(r));
    DeltaPart(Get(b.lastRaw, key), Reading(r), dir);
    assert Baseline(b, key, dir) == s.prev;
    CreditOne(ss, key, Happen(s, Seen(reading, s.counter)), Part(d, dir));
    Add64Swaps(base, Sum64(Credits(ss)), Part(d, dir));
    PartOfPlus(TargetTraffic(b, t), d, dir);
    var ss' := ss[key := Happen(s, Seen(reading, s.counter))];
    forall k | k in ss' ensures Baseline(c, k, dir) == ss'[k].prev {
      assert k != key ==> Baseline(b, k, dir) == ss[k].prev;
    }
  }

  lemma PartOfPlus(a: Traffic, d: Traffic, dir: Direction)
    ensures Part(Plus(a, d), dir) == Add64(Part(a, dir), Part(d, dir))
  {
  }

  /** One report, one look. */
  lemma ReportFollows(w: Work, r: Report, t: Target, dir: Direction, base: Uint64, ss: Sources)
    requires Follows(w.books, t, dir, base, ss) && ShownBy(r, Counters(ss), t, dir)
    ensures Follows(Step(w, r).books, t, dir, base, LookedAt(ss, r, dir)) &&
            Counters(LookedAt(ss, r, dir)) == Counters(ss)
  {
    hide SourceKey, Feeds, Step, Sum64, LookedAt;
    LookedAtOne(ss, r, dir);
    if Feeds(r, t) && Reading(r).Some? {
      OwnReportFollows(w, r, t, dir, base, ss);
    } else {
      if Feeds(r, t) {
        OwnStep(w, r, t);
        NothingAdded(TargetTraffic(w.books, t), Get(w.books.lastRaw, SourceKey(r)), Reading(r));
      } else {
        OtherStep(w, r, t);
      }
      SameStand(w.books, Step(w, r).books, t, dir, base, ss);
    }
  }

  lemma NothingAdded(a: Traffic, prev: Option<Traffic>, reading: Option<Traffic>)
    requires reading.None?
    ensures Plus(a, Delta(prev, reading)) == a
  {
  }

  lemma SameStand(b: Books, c: Books, t: Target, dir: Direction, base: Uint64, ss: Sources)
    requires Follows(b, t, dir, base, ss) && TargetTraffic(c, t) == TargetTraffic(b, t)
    requires forall k :: k in ss ==> Get(c.lastRaw, k) == Get(b.lastRaw, k)
    ensures Follows(c, t, dir, base, ss)
  {
    hide Sum64;
    forall k | k in ss ensures Baseline(c, k, dir) == ss[k].prev {
      assert Get(c.lastRaw, k) == Get(b.lastRaw, k) && Baseline(b, k, dir) == ss[k].prev;
    }
  }

  /** The sources after some reports. */
  function LookedAtAll(ss: Sources, reports: seq<Report>, dir: Direction): Sources {
    map k | k in ss :: Play(ss[k], Looks(reports, k, dir, ss[k].counter))
  }

  lemma LookedAtMore(ss: Sources, front: seq<Report>, last: Report, dir: Direction)
    requires Counters(LookedAtAll(ss, front, dir)) == Counters(ss)
    ensures LookedAtAll(ss, front + [last], dir) == LookedAt(LookedAtAll(ss, front, dir), last, dir)
  {
    hide Look;
    var reports, seen := front + [last], LookedAtAll(ss, front, dir);
    assert reports[..|front|] == front;
    forall k | k in ss
      ensures Play(ss[k], Looks(reports, k, dir, ss[k].counter)) == Play(seen[k], Look(last, k, dir, seen[k].counter))
    {
      assert Counters(seen)[k] == Counters(ss)[k];
      PlayAppends(ss[k], Looks(front, k, dir, ss[k].counter), Look(last, k, dir, ss[k].counter));
    }
  }

  lemma {:induction false} ReportsFollow(w: Work, reports: seq<Report>, t: Target, dir: Direction, base: Uint64,
      ss: Sources)
    requires Follows(w.books, t, dir, base, ss) && Shown(reports, Counters(ss), t, dir)
    ensures Follows(Steps(w, reports).books, t, dir, base, LookedAtAll(ss, reports, dir))
    ensures Counters(LookedAtAll(ss, reports, dir)) == Counters(ss)
  {
    hide Follows, ShownBy, Step, LookedAt;
    if reports == [] {
      assert LookedAtAll(ss, reports, dir) == ss;
    } else {
      var front, last := reports[..|reports| - 1], reports[|reports| - 1];
      assert reports == front + [last] && last in reports && forall r :: r in front ==> r in reports;
      ReportsFollow(w, front, t, dir, base, ss);
      LookedAtMore(ss, front, last, dir);
      ReportFollows(Steps(w, front), last, t, dir, base, LookedAtAll(ss, front, dir));
    }
  }

  /** Forgetting unseen sources and polling connections leave aggregates as they are. */
  lemma StartKeepsTraffic(b: Books, t: Target)
    ensures TargetTraffic(Start(b).books, t) == TargetTraffic(b, t)
  {
  }

  lemma EndKeepsTraffic(w: Work, connections: map<string, Connections>, t: Target)
    ensures TargetTraffic(Polled(Pruned(w), connections).books, t) == TargetTraffic(w.books, t)
  {
  }

  lemma {:induction false} NoLooks(reports: seq<Report>, key: string, dir: Direction, counter: nat)
    requires !Mentioned(reports, key)
    ensures Looks(reports, key, dir, counter) == []
  {
    if reports != [] {
      var front, last := reports[..|reports| - 1], reports[|reports| - 1];
      assert reports == front + [last];
      MentionedAppends(front, last, key);
      NoLooks(front, key, dir, counter);
    }
  }

  /** The sources after a pass. */
  function Passed(ss: Sources, reports: seq<Report>, dir: Direction): Sources {
    map k | k in ss :: Play(ss[k], PassEvents(reports, k, dir, ss[k].counter))
  }

  lemma PassedAt(s: Source, reports: seq<Report>, key: string, dir: Direction)
    ensures var looked, passed := Play(s, Looks(reports, key, dir, s.counter)),
              Play(s, PassEvents(reports, key, dir, s.counter));
            if Mentioned(reports, key) then passed == looked
            else passed.prev == None && passed.counted == looked.counted
  {
    if !Mentioned(reports, key) {
      NoLooks(reports, key, dir, s.counter);
      PlayOne(s, [], Miss);
      assert [] + [Miss] == [Miss];
    }
  }

  lemma PassBaseline(b: Books, tick: Tick, key: string, dir: Direction, s: Source)
    requires var reports := Reports(tick.snapshots);
             Baseline(Steps(Start(b), reports).books, key, dir) == Play(s, Looks(reports, key, dir, s.counter)).prev
    ensures Baseline(Sampled(b, tick).books, key, dir) ==
              Play(s, PassEvents(Reports(tick.snapshots), key, dir, s.counter)).prev
  {
    hide Steps, Play, Looks, Polled, Start;
    var reports := Reports(tick.snapshots);
    StepsBaseline(Start(b), reports, key);
    NothingSeen(b);
    PassedAt(s, reports, key, dir);
    EndKeepsRaw(Steps(Start(b), reports), tick.connections, key);
  }

  lemma NothingSeen(b: Books)
    ensures Start(b).tally.seen == {}
  {
  }

  lemma EndKeepsRaw(w: Work, connections: map<string, Connections>, key: string)
    ensures Get(Polled(Pruned(w), connections).books.lastRaw, key) == if key in w.tally.seen
              then Get(w.books.lastRaw, key) else None
  {
  }

  lemma StartFollows(b: Books, t: Target, dir: Direction, base: Uint64, ss: Sources)
    requires Follows(b, t, dir, base, ss)
    ensures Follows(Start(b).books, t, dir, base, ss)
  {
    hide Sum64;
    StartKeepsTraffic(b, t);
    SameStand(b, Start(b).books, t, dir, base, ss);
  }

  lemma PassFollows(b: Books, tick: Tick, t: Target, dir: Direction, base: Uint64, ss: Sources)
    requires Follows(b, t, dir, base, ss) && Shown(Reports(tick.snapshots), Counters(ss), t, dir)
    ensures Follows(Sampled(b, tick).books, t, dir, base, Passed(ss, Reports(tick.snapshots), dir))
  {
    hide Steps, Sum64, TargetTraffic, Shown, Looks, PassEvents, Play, Baseline, Start, Polled, Pruned;
    var reports := Reports(tick.snapshots);
    var w := Steps(Start(b), reports);
    var looked, passed := LookedAtAll(ss, reports, dir), Passed(ss, reports, dir);
    StartFollows(b, t, dir, base, ss);
    ReportsFollow(Start(b), reports, t, dir, base, ss);
    EndKeepsTraffic(w, tick.connections, t);
    forall k | k in ss
      ensures Baseline(Sampled(b, tick).books, k, dir) == passed[k].prev && passed[k].counted == looked[k].counted
    {
      assert Baseline(w.books, k, dir) == looked[k].prev;
      PassBaseline(b, tick, k, dir, ss[k]);
      PassedAt(ss[k], reports, k, dir);
    }
    assert Credits(passed) == Credits(looked);
  }

  lemma TickAppends(b: Books, ticks: seq<Tick>, tick: Tick)
    ensures Run(b, ticks + [tick]) == Sampled(Run(b, ticks), tick).books
  {
    assert (ticks + [tick])[..|ticks|] == ticks;
  }

  lemma QuietSource(s: Source, m: Moment, key: string, dir: Direction)
    requires !m.Samples?
    ensures var s' := Play(s, EventsOf(m, key, dir, s.counter)); s'.prev == s.prev && s'.counted == s.counted
  {
    match m
    case Moves(source, n) =>
      PlayOne(s, [], Use(n));
      assert [] + [Use(n)] == [Use(n)];
    case Restarts(source) =>
      PlayOne(s, [], Reset);
      assert [] + [Reset] == [Reset];
  }

  lemma SourcesAfterOne(moments: seq<Moment>, keys: set<string>, dir: Direction, k: string)
    requires moments != [] && k in keys
    ensures var front, last := moments[..|moments| - 1], moments[|moments| - 1];
            var s := SourcesAfter(front, keys, dir)[k];
            SourcesAfter(moments, keys, dir)[k] == Play(s, EventsOf(last, k, dir, s.counter))
  {
    hide EventsOf, Happen;
    var front, last := moments[..|moments| - 1], moments[|moments| - 1];
    PlayAppends(NEW_SOURCE, History(front, k, dir), EventsOf(last, k, dir, After(History(front, k, dir)).counter));
  }

  /** Over every run, the aggregate of an inbound, account or outbound has grown by the sum of what the counter model
      credits each of its sources with, modulo 2^64, and the ledger's baselines are the ones of those models. */
  lemma {:induction false} LedgerFollowsSources(b: Books, moments: seq<Moment>, keys: set<string>, t: Target,
      dir: Direction)
    requires keys !! b.lastRaw.Keys && Observed(moments, keys, t, dir)
    ensures Follows(Run(b, TicksOf(moments)), t, dir, Aggregate(b, t, dir), SourcesAfter(moments, keys, dir))
  {
    hide Follows, Sum64, Shown, EventsOf, Happen, SourcesAfter;
    if moments == [] {
      FollowsAtFirst(b, keys, t, dir);
    } else {
      var front, last := moments[..|moments| - 1], moments[|moments| - 1];
      var ticks, ss, base := TicksOf(front), SourcesAfter(front, keys, dir), Aggregate(b, t, dir);
      LedgerFollowsSources(b, front, keys, t, dir);
      if last.Samples? {
        TickAppends(b, ticks, last.tick);
        PassFollows(Run(b, ticks), last.tick, t, dir, base, ss);
        AfterPass(moments, keys, dir);
      } else {
        AfterQuiet(Run(b, ticks), moments, keys, t, dir, base);
      }
    }
  }

  lemma FollowsAtFirst(b: Books, keys: set<string>, t: Target, dir: Direction)
    requires keys !! b.lastRaw.Keys
    ensures Follows(b, t, dir, Aggregate(b, t, dir), SourcesAfter([], keys, dir))
  {
    var zeros := Credits(SourcesAfter([], keys, dir));
    SumIgnoresZeros(map[], zeros);
  }

  lemma AfterPass(moments: seq<Moment>, keys: set<string>, dir: Direction)
    requires moments != [] && moments[|moments| - 1].Samples?
    ensures var reports := Reports(moments[|moments| - 1].tick.snapshots);
            SourcesAfter(moments, keys, dir) == Passed(SourcesAfter(moments[..|moments| - 1], keys, dir), reports, dir)
  {
    hide Happen, PassEvents, History, Play;
    forall k | k in keys
      ensures SourcesAfter(moments, keys, dir)[k] ==
              Passed(SourcesAfter(moments[..|moments| - 1], keys, dir), Reports(moments[|moments| - 1].tick.snapshots),
                dir)[k]
    {
      SourcesAfterOne(moments, keys, dir, k);
    }
  }

  lemma AfterQuiet(b: Books, moments: seq<Moment>, keys: set<string>, t: Target, dir: Direction, base: Uint64)
    requires moments != [] && !moments[|moments| - 1].Samples?
    requires Follows(b, t, dir, base, SourcesAfter(moments[..|moments| - 1], keys, dir))
    ensures Follows(b, t, dir, base, SourcesAfter(moments, keys, dir))
  {
    hide Happen, EventsOf, History, Play, Sum64;
    var was, ss := SourcesAfter(moments[..|moments| - 1], keys, dir), SourcesAfter(moments, keys, dir);
    forall k | k in keys ensures ss[k].prev == was[k].prev && ss[k].counted == was[k].counted {
      SourcesAfterOne(moments, keys, dir, k);
      QuietSource(was[k], moments[|moments| - 1], k, dir);
    }
    assert Credits(ss) == Credits(was);
  }

  // ---------- the aggregate against the truth ----------

  /** The sum of all values of a map. */
  ghost function Total(m: map<string, nat>): nat
    decreases |m|
  {
    if m == map[] then 0 else
      var k := Pick(m.Keys);
      WithoutIsSmaller(m, k);
      m[k] + Total(Without(m, k))
  }

  lemma {:induction false} WrappedTotal(m: map<string, nat>)
    ensures Sum64(map k | k in m :: Wrapped(m[k])) == Wrapped(Total(m))
    decreases |m|
  {
    hide Wrapped;
    var w := map k | k in m :: Wrapped(m[k]);
    if m == map[] {
      assert w == map[];
      ZeroIsWrapped();
    } else {
      var k := Pick(m.Keys);
      WithoutIsSmaller(m, k);
      WrappedTotal(Without(m, k));
      SumTakesOut(w, k);
      assert Without(w, k) == map j | j in Without(m, k) :: Wrapped(Without(m, k)[j]);
      WrappedSum(m[k], Total(Without(m, k)));
    }
  }

  lemma ZeroIsWrapped()
    ensures Wrapped(0) == 0
  {
  }

  lemma WrappedSum(m: nat, n: nat)
    ensures Wrapped(m + n) == Add64(Wrapped(m), Wrapped(n))
  {
  }

  /** Sums balance if every entry does. */
  lemma {:induction false} TotalsBalance(a: map<string, nat>, b: map<string, nat>, c: map<string, nat>,
      d: map<string, nat>, e: map<string, nat>)
    requires a.Keys == b.Keys == c.Keys == d.Keys == e.Keys
    requires forall k :: k in a ==> a[k] + b[k] + c[k] == d[k] + e[k]
    ensures Total(a) + Total(b) + Total(c) == Total(d) + Total(e)
    decreases |a|
  {
    if a != map[] {
      var k := Pick(a.Keys);
      assert b != map[] && c != map[] && d != map[] && e != map[];
      WithoutIsSmaller(a, k);
      assert Without(a, k).Keys == Without(b, k).Keys == Without(c, k).Keys == Without(d, k).Keys == Without(e, k).Keys;
      TotalsBalance(Without(a, k), Without(b, k), Without(c, k), Without(d, k), Without(e, k));
    } else {
      assert b == c == d == e == map[];
    }
  }

  lemma {:induction false} TotalOfZeros(m: map<string, nat>)
    requires forall k :: k in m ==> m[k] == 0
    ensures Total(m) == 0
    decreases |m|
  {
    if m != map[] {
      WithoutIsSmaller(m, Pick(m.Keys));
      TotalOfZeros(Without(m, Pick(m.Keys)));
    }
  }

  function Counted(moments: seq<Moment>, keys: set<string>, dir: Direction): map<string, nat> {
    map k | k in keys :: After(History(moments, k, dir)).counted
  }

  function Truths(moments: seq<Moment>, keys: set<string>, dir: Direction): map<string, nat> {
    map k | k in keys :: After(History(moments, k, dir)).truth
  }

  function Extras(moments: seq<Moment>, keys: set<string>, dir: Direction): map<string, nat> {
    map k | k in keys :: Extra(History(moments, k, dir))
  }

  function Losses(moments: seq<Moment>, keys: set<string>, dir: Direction): map<string, nat> {
    map k | k in keys :: Lost(History(moments, k, dir))
  }

  function Opens(moments: seq<Moment>, keys: set<string>, dir: Direction): map<string, nat> {
    map k | k in keys :: Open(After(History(moments, k, dir)))
  }

  lemma FollowsUnwrapped(c: Books, moments: seq<Moment>, keys: set<string>, t: Target, dir: Direction, base: Uint64)
    requires Follows(c, t, dir, base, SourcesAfter(moments, keys, dir))
    requires base + Total(Counted(moments, keys, dir)) < TWO_TO_THE_64
    ensures Aggregate(c, t, dir) == base + Total(Counted(moments, keys, dir))
  {
    hide After, History, Aggregate;
    var m := Counted(moments, keys, dir);
    WrappedTotal(m);
    assert Credits(SourcesAfter(moments, keys, dir)) == map k | k in m :: Wrapped(m[k]);
  }

  lemma SourcesBalance(moments: seq<Moment>, keys: set<string>, dir: Direction)
    ensures Total(Counted(moments, keys, dir)) + Total(Losses(moments, keys, dir)) + Total(Opens(moments, keys, dir))
         == Total(Truths(moments, keys, dir)) + Total(Extras(moments, keys, dir))
  {
    hide After, History, Extra, Lost, Open;
    forall k | k in keys
      ensures Counted(moments, keys, dir)[k] + Losses(moments, keys, dir)[k] + Opens(moments, keys, dir)[k]
           == Truths(moments, keys, dir)[k] + Extras(moments, keys, dir)[k]
    {
      CreditsBalance(History(moments, k, dir));
    }
    TotalsBalance(Counted(moments, keys, dir), Losses(moments, keys, dir), Opens(moments, keys, dir),
                  Truths(moments, keys, dir), Extras(moments, keys, dir));
  }

  /** Hence, as long as it does not wrap around, an aggregate in the ledger grows by at most the true traffic of its
      sources exactly if not more was credited twice after failed reads than was lost or is still open, all sources
      taken together; and always if no source was polled after a failed read of a standing counter. */
  lemma AggregateIsBounded(b: Books, moments: seq<Moment>, keys: set<string>, t: Target, dir: Direction)
    requires keys !! b.lastRaw.Keys && Observed(moments, keys, t, dir)
    requires Aggregate(b, t, dir) + Total(Counted(moments, keys, dir)) < TWO_TO_THE_64
    ensures var start, end := Aggregate(b, t, dir), Aggregate(Run(b, TicksOf(moments)), t, dir);
            && end == start + Total(Counted(moments, keys, dir))
            && (end <= start + Total(Truths(moments, keys, dir)) <==>
                  Total(Extras(moments, keys, dir)) <= Total(Losses(moments, keys, dir)) +
                    Total(Opens(moments, keys, dir)))
            && ((forall k :: k in keys ==> NeverBlinded(History(moments, k, dir))) ==>
                end <= start + Total(Truths(moments, keys, dir)))
  {
    hide Aggregate, After, History, Observed, NeverBlinded, Extra, Lost, Open;
    LedgerFollowsSources(b, moments, keys, t, dir);
    FollowsUnwrapped(Run(b, TicksOf(moments)), moments, keys, t, dir, Aggregate(b, t, dir));
    SourcesBalance(moments, keys, dir);
    if forall k :: k in keys ==> NeverBlinded(History(moments, k, dir)) {
      forall k | k in keys ensures Extras(moments, keys, dir)[k] == 0 {
        NeverOverCounts(History(moments, k, dir));
      }
      TotalOfZeros(Extras(moments, keys, dir));
    }
  }

  // ---------- the operations ----------

  class Manager {
    var inbounds: map<string, Traffic>
    var accounts: map<string, AccountMetric>
    var outbounds: map<string, OutboundMetric>
    var totalIn: Traffic
    var totalOut: Traffic
    var lastRaw: map<string, Traffic>
    const history: Hourly.History

    ghost function View(): Books
      reads this
    {
      Books(inbounds, accounts, outbounds, totalIn, totalOut, lastRaw)
    }

    constructor (history: Hourly.History)
      ensures View() == Books(map[], map[], map[], ZERO, ZERO, map[]) && this.history == history
      ensures InboundBalanced(View()) && OutboundBalanced(View())
    {
      inbounds, accounts, outbounds, totalIn, totalOut, lastRaw := map[], map[], map[], ZERO, ZERO, map[];
      this.history := history;
      new;
      assert InboundParts(inbounds, Rx) == map[] && InboundParts(inbounds, Tx) == map[];
      assert CountedParts(outbounds, Rx) == map[] && CountedParts(outbounds, Tx) == map[];
    }

    /** applyTrafficDelta on one aggregate. */
    method ApplyTrafficDelta(sourceKey: string, current: Option<Traffic>, aggregate: Traffic)
      returns (delta: Traffic, grown: Traffic)
      modifies this`lastRaw
      ensures delta == Delta(Get(old(lastRaw), sourceKey), current) && grown == Plus(aggregate, delta)
      ensures lastRaw == if current.Some? then old(lastRaw)[sourceKey := current.value] else old(lastRaw)
    {
      if current == None {
        return ZERO, aggregate;
      }
      if sourceKey !in lastRaw {
        lastRaw := lastRaw[sourceKey := current.value];
        return ZERO, aggregate;
      }
      var prev := lastRaw[sourceKey];
      delta := current.value;
      if current.value.rx >= prev.rx {
        delta := delta.(rx := current.value.rx - prev.rx);
      }
      if current.value.tx >= prev.tx {
        delta := delta.(tx := current.value.tx - prev.tx);
      }
      lastRaw := lastRaw[sourceKey := current.value];
      grown := Traffic(Add64(aggregate.rx, delta.rx), Add64(aggregate.tx, delta.tx));
    }

    method SampleInbound(engine: string, inbound: InboundReport, t: Tally) returns (t': Tally)
      modifies this
      ensures Work(View(), t') == Step(Work(old(View()), t), Inbound(engine, inbound))
    {
      if inbound.name !in inbounds {
        inbounds := inbounds[inbound.name := ZERO];
      }
      var sourceKey := "inbound:" + engine + ":" + inbound.name;
      t' := t.(seen := t.seen + {sourceKey});
      var delta, grown := ApplyTrafficDelta(sourceKey, inbound.traffic, inbounds[inbound.name]);
      inbounds := inbounds[inbound.name := grown];
      totalIn := Plus(totalIn, delta);
      t' := t'.(rx := Add64(t'.rx, Add64(delta.rx, delta.tx)), speed := t'.speed + HalfOf(delta));
      if delta.rx > 0 || delta.tx > 0 {
        t' := t'.(activeInbounds := t'.activeInbounds + {inbound.name});
      }
    }

    method SampleAccount(engine: string, account: AccountReport, t: Tally) returns (t': Tally)
      modifies this
      ensures Work(View(), t') == Step(Work(old(View()), t), Account(engine, account))
    {
      hide Delta, Plus, Add32, Trim;
      var id := Trim(account.id);
      if id == "" {
        return t;
      }
      if id !in accounts {
        accounts := accounts[id := AccountMetric(ZERO, 0)];
      }
      var online := Add32(accounts[id].online, account.online);
      var sourceKey := "account:" + engine + ":" + id;
      t' := t.(seen := t.seen + {sourceKey});
      var delta, grown := ApplyTrafficDelta(sourceKey, account.traffic, accounts[id].traffic);
      if online == 0 && (delta.rx > 0 || delta.tx > 0) {
        online := 1;
      }
      accounts := accounts[id := AccountMetric(grown, online)];
      if online > 0 || delta.rx > 0 || delta.tx > 0 {
        t' := t'.(activeUsers := t'.activeUsers + {id});
      }
    }

    method SampleOutbound(engine: string, outbound: OutboundReport, t: Tally) returns (t': Tally)
      modifies this
      ensures Work(View(), t') == Step(Work(old(View()), t), Outbound(engine, outbound))
    {
      if outbound.name !in outbounds {
        outbounds := outbounds[outbound.name := OutboundMetric("", false, ZERO)];
      }
      var metric := outbounds[outbound.name].(kind := outbound.kind, excluded := outbound.excluded);
      var sourceKey := "outbound:" + engine + ":" + outbound.name;
      t' := t.(seen := t.seen + {sourceKey});
      var delta, grown := ApplyTrafficDelta(sourceKey, outbound.traffic, metric.traffic);
      outbounds := outbounds[outbound.name := metric.(traffic := grown)];
      if !outbound.excluded {
        totalOut := Plus(totalOut, delta);
        t' := t'.(tx := Add64(t'.tx, Add64(delta.rx, delta.tx)), speed := t'.speed + HalfOf(delta));
      }
    }

    method SampleInbounds(engine: string, rs: seq<InboundReport>, t: Tally) returns (t': Tally)
      modifies this
      ensures Work(View(), t') == Steps(Work(old(View()), t), InboundReports(engine, rs))
    {
      t' := t;
      ghost var start := Work(View(), t);
      for i := 0 to |rs|
        invariant Work(View(), t') == Steps(start, InboundReports(engine, rs[..i]))
      {
        t' := SampleInbound(engine, rs[i], t');
        assert rs[..i + 1][..i] == rs[..i];
        StepsAppend(start, InboundReports(engine, rs[..i]), Inbound(engine, rs[i]));
      }
      assert rs[..|rs|] == rs;
    }

    method SampleAccounts(engine: string, rs: seq<AccountReport>, t: Tally) returns (t': Tally)
      modifies this
      ensures Work(View(), t') == Steps(Work(old(View()), t), AccountReports(engine, rs))
    {
      t' := t;
      ghost var start := Work(View(), t);
      for i := 0 to |rs|
        invariant Work(View(), t') == Steps(start, AccountReports(engine, rs[..i]))
      {
        t' := SampleAccount(engine, rs[i], t');
        assert rs[..i + 1][..i] == rs[..i];
        StepsAppend(start, AccountReports(engine, rs[..i]), Account(engine, rs[i]));
      }
      assert rs[..|rs|] == rs;
    }

    method SampleOutbounds(engine: string, rs: seq<OutboundReport>, t: Tally) returns (t': Tally)
      modifies this
      ensures Work(View(), t') == Steps(Work(old(View()), t), OutboundReports(engine, rs))
    {
      t' := t;
      ghost var start := Work(View(), t);
      for i := 0 to |rs|
        invariant Work(View(), t') == Steps(start, OutboundReports(engine, rs[..i]))
      {
        t' := SampleOutbound(engine, rs[i], t');
        assert rs[..i + 1][..i] == rs[..i];
        StepsAppend(start, OutboundReports(engine, rs[..i]), Outbound(engine, rs[i]));
      }
      assert rs[..|rs|] == rs;
    }

    method SampleEngine(s: Snapshot, t: Tally) returns (t': Tally)
      modifies this
      ensures Work(View(), t') == Steps(Work(old(View()), t), Reports([s]))
    {
      EngineSteps(Work(View(), t), s);
      t' := SampleInbounds(s.name, s.inbounds, t);
      t' := SampleAccounts(s.name, s.accounts, t');
      t' := SampleOutbounds(s.name, s.outbounds, t');
    }

    method SampleEngines(snapshots: seq<Snapshot>) returns (tally: Tally)
      modifies this
      ensures Work(View(), tally) == Steps(Work(old(View()), EMPTY_TALLY), Reports(snapshots))
    {
      tally := EMPTY_TALLY;
      ghost var start := Work(View(), tally);
      for i := 0 to |snapshots|
        invariant Work(View(), tally) == Steps(start, Reports(snapshots[..i]))
      {
        tally := SampleEngine(snapshots[i], tally);
        EnginesSteps(start, snapshots, i);
      }
      assert snapshots[..|snapshots|] == snapshots;
    }

    method PollConnections(connections: map<string, Connections>, t: Tally) returns (tally: Tally)
      modifies this`inbounds
      ensures Work(View(), tally) == Polled(Work(old(View()), t), connections)
    {
      tally := t;
      ghost var start := Work(View(), t);
      var done, rest := {}, connections.Keys;
      PolledForNone(start, connections);
      while rest != {}
        invariant done + rest == connections.Keys
        invariant Work(View(), tally) == PolledFor(start, connections, done)
        decreases rest
      {
        var name := AnyOf(rest);
        PolledForOneMore(start, connections, done, name);
        if name !in inbounds {
          inbounds := inbounds[name := ZERO];
        }
        if connections[name].tcp > 0 || connections[name].udp > 0 {
          tally := tally.(activeInbounds := tally.activeInbounds + {name});
        }
        done, rest := done + {name}, rest - {name};
      }
    }

    /** sampleMetrics, from the snapshots on. The bucket of the hour takes in the credited bytes per second, the growth
        of both totals, and the numbers of users shown and of inbounds credited or connected. */
    method Sample(tick: Tick) returns (tally: Tally)
      modifies this, history
      ensures Work(View(), tally) == Sampled(old(View()), tick)
      ensures history.hourly == Hourly.Normal(old(history.hourly) + [Hourly.AsEntry(HourlySample(tally, tick.now))])
      ensures var reports := Reports(tick.snapshots);
              history.hourly == Hourly.Normal(old(history.hourly) + [Some(Hourly.Bucket(
                  tick.now - tick.now % 3600, CreditedSpeed(old(View()), reports), GrownBy(old(totalIn), totalIn),
                  GrownBy(old(totalOut), totalOut), |ActiveUsers(old(View()), reports)|,
                  |CreditedInbounds(old(View()), reports) + Connected(tick.connections)|))])
    {
      hide Steps, Reports, CreditedSpeed, ActiveUsers, CreditedInbounds, Connected, GrownBy, PolledFor, HourlySample,
        Hourly.AsEntry, Hourly.Normal;
      PassRecords(View(), tick);
      accounts := map id | id in accounts :: accounts[id].(online := 0);
      tally := SampleEngines(tick.snapshots);
      lastRaw := map k | k in lastRaw && k in tally.seen :: lastRaw[k];
      tally := PollConnections(tick.connections, tally);
      history.Record(HourlySample(tally, tick.now));
    }
  }

  lemma PolledForNone(w: Work, connections: map<string, Connections>)
    ensures PolledFor(w, connections, {}) == w
  {
    var none: set<string> := {};
    assert (map n | n in none :: ZERO) + w.books.inbounds == w.books.inbounds;
  }

  lemma PolledForOneMore(w: Work, connections: map<string, Connections>, done: set<string>, name: string)
    requires done + {name} <= connections.Keys
    ensures var v := PolledFor(w, connections, done);
            PolledFor(w, connections, done + {name})
            == Work(v.books.(inbounds := if name in v.books.inbounds then v.books.inbounds
              else v.books.inbounds[name := ZERO]),
                    v.tally.(activeInbounds := v.tally.activeInbounds + if Busy(connections[name]) then {name} else {}))
  {
    ZeroOneMore(w.books.inbounds, done, name);
    var more := done + {name};
    assert (set n | n in more && Busy(connections[n])) ==
      (set n | n in done && Busy(connections[n])) + if Busy(connections[name]) then {name} else {};
  }

  lemma ZeroOneMore(m: map<string, Traffic>, done: set<string>, name: string)
    ensures var v := (map n | n in done :: ZERO) + m;
            (map n | n in done + {name} :: ZERO) + m == if name in v then v else v[name := ZERO]
  {
  }

  lemma EngineSteps(w: Work, s: Snapshot)
    ensures Steps(w, Reports([s]))
         == Steps(Steps(Steps(w, InboundReports(s.name, s.inbounds)), AccountReports(s.name, s.accounts)),
           OutboundReports(s.name, s.outbounds))
  {
    var ins, accs, outs := InboundReports(s.name, s.inbounds), AccountReports(s.name, s.accounts),
      OutboundReports(s.name, s.outbounds);
    StepsCompose(w, ins, accs);
    StepsCompose(w, ins + accs, outs);
    ReportsOfOne(s);
  }

  lemma ReportsOfOne(s: Snapshot)
    ensures Reports([s]) ==
              InboundReports(s.name, s.inbounds) + AccountReports(s.name, s.accounts) +
                OutboundReports(s.name, s.outbounds)
  {
    assert [s][..0] == [];
    assert Reports([s]) ==
      Reports([]) + InboundReports(s.name, s.inbounds) + AccountReports(s.name, s.accounts) +
        OutboundReports(s.name, s.outbounds);
  }

  lemma EnginesSteps(w: Work, snapshots: seq<Snapshot>, i: nat)
    requires i < |snapshots|
    ensures Steps(w, Reports(snapshots[..i + 1])) == Steps(Steps(w, Reports(snapshots[..i])), Reports([snapshots[i]]))
  {
    assert snapshots[..i + 1] == snapshots[..i] + [snapshots[i]];
    OneEngineMore(w, snapshots[..i], snapshots[i]);
  }

  lemma OneEngineMore(w: Work, front: seq<Snapshot>, s: Snapshot)
    ensures Steps(w, Reports(front + [s])) == Steps(Steps(w, Reports(front)), Reports([s]))
  {
    ReportsAppend(front, s);
    StepsCompose(w, Reports(front), Reports([s]));
  }

  lemma {:induction false} StepsCompose(w: Work, a: seq<Report>, b: seq<Report>)
    ensures Steps(w, a + b) == Steps(Steps(w, a), b)
  {
    if b == [] {
      assert a + b == a;
    } else {
      StepsCompose(w, a, b[..|b| - 1]);
      assert (a + b)[..|a + b| - 1] == a + b[..|b| - 1];
    }
  }

  lemma StepsAppend(w: Work, reports: seq<Report>, r: Report)
    ensures Steps(w, reports + [r]) == Step(Steps(w, reports), r)
  {
    assert (reports + [r])[..|reports|] == reports;
  }

  lemma ReportsAppend(front: seq<Snapshot>, s: Snapshot)
    ensures Reports(front + [s]) == Reports(front) + Reports([s])
  {
    assert (front + [s])[..|front|] == front;
    ReportsOfOne(s);
  }
}
