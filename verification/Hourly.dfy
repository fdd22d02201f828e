/** The hourly history of node/internal/engine/metrics.go: at most 168 hour buckets, re-normalised
    on every sample, and the window query over them. */
module Hourly {
  import opened Common

  const MAX_BUCKETS: nat := 168
  const SECONDS_PER_HOUR: nat := 3600

  type Speed = r: real | 0.0 <= r

  /** One hour of history. */
  datatype Bucket = Bucket(hour: int, maxSpeed: Speed, rx: Uint64, tx: Uint64, users: nat, inbounds: nat)

  /** A stored list entry; a persisted list may hold nulls. */
  type Entry = Option<Bucket>
  type Hours = map<int, Bucket>

  // ---------- what a list of buckets means ----------

  function MaxNat(a: nat, b: nat): nat {
    if b > a then b else a
  }

  function Merge(a: Bucket, b: Bucket): Bucket {
    Bucket(a.hour, if b.maxSpeed > a.maxSpeed then b.maxSpeed else a.maxSpeed, Add64(a.rx, b.rx), Add64(a.tx, b.tx),
           MaxNat(a.users, b.users), MaxNat(a.inbounds, b.inbounds))
  }

  predicate Usable(e: Entry) {
    e.Some? && e.value.hour > 0
  }

  /** One more entry joins the group of its hour; nulls and hours at or before the epoch are dropped. */
  function Absorb(m: Hours, e: Entry): Hours {
    if !Usable(e) then m
    else if e.value.hour in m then m[e.value.hour := Merge(m[e.value.hour], e.value)]
    else m[e.value.hour := e.value]
  }

  /** All entries grouped by hour. */
  function Group(s: seq<Entry>): Hours {
    if s == [] then map[] else Absorb(Group(s[..|s| - 1]), s[|s| - 1])
  }

  ghost predicate WellKeyed(m: Hours) {
    forall h :: h in m ==> h > 0 && m[h].hour == h
  }

  ghost function Above(hours: set<int>, h: int): set<int> {
    set j | j in hours && j > h
  }

  /** The latest n of a set of hours. */
  ghost function Top(hours: set<int>, n: nat := MAX_BUCKETS): set<int> {
    set h | h in hours && |Above(hours, h)| < n
  }

  ghost function Latest(m: Hours, n: nat := MAX_BUCKETS): Hours {
    map h | h in Top(m.Keys, n) :: m[h]
  }

  /** Strictly increasing hours and no nulls. */
  ghost predicate Sorted(s: seq<Entry>) {
    s == [] || (
      var front, last := s[..|s| - 1], s[|s| - 1];
      last.Some? && Sorted(front) && forall e :: e in front ==> e.Some? && e.value.hour < last.value.hour)
  }

  lemma {:induction false} Extremes(hours: set<int>) returns (low: int, high: int)
    requires hours != {}
    ensures low in hours && high in hours
    ensures forall j :: j in hours ==> low <= j <= high
  {
    var x := Pick(hours);
    low, high := x, x;
    var rest := hours - {x};
    if rest != {} {
      var l, h := Extremes(rest);
      low, high := if l < x then l else x, if h > x then h else x;
    }
    forall j | j in hours ensures low <= j <= high {
      assert j == x || j in rest;
    }
  }

  lemma GreatestExists(hours: set<int>)
    requires hours != {}
    ensures exists k :: k in hours && forall j :: j in hours ==> j <= k
  {
    var _, high := Extremes(hours);
  }

  ghost function Greatest(hours: set<int>): (k: int)
    requires hours != {}
    ensures k in hours && forall j :: j in hours ==> j <= k
  {
    GreatestExists(hours);
    var k :| k in hours && forall j :: j in hours ==> j <= k;
    k
  }

  lemma GreatestIs(hours: set<int>, k: int)
    requires k in hours && forall j :: j in hours ==> j <= k
    ensures Greatest(hours) == k
  {
  }

  /** The buckets of m from the earliest hour to the latest. */
  ghost function InOrder(m: Hours): seq<Entry>
    decreases |m|
  {
    if m == map[] then [] else
      var k := Greatest(m.Keys);
      WithoutIsSmaller(m, k);
      InOrder(Without(m, k)) + [Some(m[k])]
  }

  /** The normal form of a history: grouped by hour, latest 168 hours, ascending. */
  ghost function Normal(s: seq<Entry>): seq<Entry> {
    InOrder(Latest(Group(s)))
  }

  // ---------- lists in order ----------

  lemma {:induction false} InOrderSorted(m: Hours)
    requires WellKeyed(m)
    ensures Sorted(InOrder(m))
    ensures forall e :: e in InOrder(m) <==> e.Some? && e.value.hour in m && m[e.value.hour] == e.value
    decreases |m|
  {
    if m != map[] {
      var k := Greatest(m.Keys);
      WithoutIsSmaller(m, k);
      InOrderSorted(Without(m, k));
      assert InOrder(m)[..|InOrder(m)| - 1] == InOrder(Without(m, k));
    }
  }

  lemma {:induction false} GroupIsWellKeyed(s: seq<Entry>)
    ensures WellKeyed(Group(s))
  {
    if s != [] {
      GroupIsWellKeyed(s[..|s| - 1]);
    }
  }

  lemma {:induction false} GroupOfInOrder(m: Hours)
    requires WellKeyed(m)
    ensures Group(InOrder(m)) == m
    decreases |m|
  {
    if m != map[] {
      var k := Greatest(m.Keys);
      WithoutIsSmaller(m, k);
      GroupOfInOrder(Without(m, k));
      var s := InOrder(m);
      assert s[..|s| - 1] == InOrder(Without(m, k));
      assert Without(m, k)[k := m[k]] == m;
    }
  }

  /** Insertion from the right, one step of a sort. */
  function Insert(s: seq<Entry>, b: Bucket): seq<Entry> {
    if s == [] || s[|s| - 1] == None || s[|s| - 1].value.hour < b.hour then s + [Some(b)]
    else Insert(s[..|s| - 1], b) + [s[|s| - 1]]
  }

  lemma {:induction false} InsertInOrder(m: Hours, b: Bucket)
    requires WellKeyed(m) && b.hour !in m
    ensures Insert(InOrder(m), b) == InOrder(m[b.hour := b])
    decreases |m|
  {
    var m' := m[b.hour := b];
    if m == map[] {
      GreatestIs(m'.Keys, b.hour);
      assert Without(m', b.hour) == map[];
    } else {
      var k, s := Greatest(m.Keys), InOrder(m);
      assert s[..|s| - 1] == InOrder(Without(m, k)) && s[|s| - 1] == Some(m[k]);
      if k < b.hour {
        GreatestIs(m'.Keys, b.hour);
        assert Without(m', b.hour) == m;
      } else {
        GreatestIs(m'.Keys, k);
        assert Without(m', k) == Without(m, k)[b.hour := b];
        WithoutIsSmaller(m, k);
        InsertInOrder(Without(m, k), b);
      }
    }
  }

  lemma AboveGreatest(hours: set<int>, k: int, h: int)
    requires k in hours && (forall j :: j in hours ==> j <= k)
    ensures h != k && h in hours ==> |Above(hours, h)| == |Above(hours - {k}, h)| + 1
    ensures |Above(hours, k)| == 0
  {
    if h != k && h in hours {
      assert Above(hours, h) == Above(hours - {k}, h) + {k};
    }
    assert Above(hours, k) == {};
  }

  lemma LatestSteps(m: Hours, n: nat)
    requires WellKeyed(m) && m != map[] && n > 0
    ensures var k := Greatest(m.Keys); InOrder(Latest(m, n)) == InOrder(Latest(Without(m, k), n - 1)) + [Some(m[k])]
  {
    var k := Greatest(m.Keys);
    var rest := Without(m, k);
    assert rest.Keys == m.Keys - {k};
    forall h | h in m.Keys ensures h in Top(m.Keys, n) <==> h == k || h in Top(rest.Keys, n - 1) {
      AboveGreatest(m.Keys, k, h);
    }
    GreatestIs(Latest(m, n).Keys, k);
    assert Without(Latest(m, n), k) == Latest(rest, n - 1);
  }

  ghost function Last<T>(s: seq<T>, n: nat): seq<T> {
    if |s| > n then s[|s| - n..] else s
  }

  lemma LastOfAppend<T>(s: seq<T>, x: T, n: nat)
    requires n > 0
    ensures Last(s + [x], n) == Last(s, n - 1) + [x]
  {
  }

  /** The latest n buckets are the last n of the ordered list. */
  lemma {:induction false} LastAreLatest(m: Hours, n: nat)
    requires WellKeyed(m)
    ensures InOrder(Latest(m, n)) == Last(InOrder(m), n)
    decreases |m|
  {
    if m == map[] || n == 0 {
      assert Latest(m, n) == map[];
    } else {
      var k := Greatest(m.Keys);
      WithoutIsSmaller(m, k);
      LastAreLatest(Without(m, k), n - 1);
      LatestSteps(m, n);
      LastOfAppend(InOrder(Without(m, k)), Some(m[k]), n);
    }
  }

  // ---------- keeping the latest hours ----------

  lemma SmallerSet(a: set<int>, b: set<int>)
    requires a <= b
    ensures |a| <= |b|
  {
    assert b == a + (b - a);
  }

  lemma {:induction false} TopSize(hours: set<int>)
    ensures |hours| > MAX_BUCKETS ==> |Top(hours)| == MAX_BUCKETS
    ensures |hours| <= MAX_BUCKETS ==> Top(hours) == hours
  {
    if |hours| <= MAX_BUCKETS {
      forall h | h in hours ensures |Above(hours, h)| < MAX_BUCKETS {
        SmallerSet(Above(hours, h), hours - {h});
      }
    } else {
      var low, _ := Extremes(hours);
      var rest := hours - {low};
      TopSize(rest);
      assert Above(hours, low) == rest;
      forall h | h in rest ensures Above(hours, h) == Above(rest, h) {
      }
      assert Top(hours) == Top(rest);
    }
  }

  /** Dropping old hours early does not change which hours are the latest once more arrive. */
  lemma TopThenMore(hours: set<int>, more: set<int>)
    ensures Top(Top(hours) + more) == Top(hours + more)
  {
    var all, kept := hours + more, Top(hours) + more;
    forall h | h in all
      ensures h in Top(kept) <==> h in Top(all)
    {
      SmallerSet(Above(kept, h), Above(all, h));
      SmallerSet(Above(hours, h), Above(all, h));
      if h in kept && h !in Top(all) && Above(kept, h) != Above(all, h) {
        var lost :| lost in Above(all, h) && lost !in Above(kept, h);
        ManyAbove(hours, lost);
        SmallerSet(Above(Top(hours), lost), Above(kept, h));
      }
    }
  }

  /** Above an hour that was dropped there are 168 hours that were kept. */
  lemma ManyAbove(hours: set<int>, lost: int)
    requires lost in hours && lost !in Top(hours)
    ensures |Above(Top(hours), lost)| >= MAX_BUCKETS
  {
    var later := Above(hours, lost);
    TopSize(later);
    forall h | h in later ensures Above(later, h) == Above(hours, h) {
    }
    assert Top(later) <= Above(Top(hours), lost);
    SmallerSet(Top(later), Above(Top(hours), lost));
  }

  lemma LatestAbsorbs(m: Hours, e: Entry)
    requires WellKeyed(m)
    ensures Latest(Absorb(Latest(m), e)) == Latest(Absorb(m, e))
  {
    var more := if Usable(e) then {e.value.hour} else {};
    TopThenMore(m.Keys, more);
    TopThenMore(m.Keys, {});
    assert Latest(m).Keys == Top(m.Keys);
    assert Absorb(m, e).Keys == m.Keys + more;
    assert Absorb(Latest(m), e).Keys == Top(m.Keys) + more;
    forall h | h in Top(m.Keys + more)
      ensures h in m ==> h in Top(m.Keys)
    {
      if h in m {
        SmallerSet(Above(m.Keys, h), Above(m.Keys + more, h));
      }
    }
  }

  lemma GroupAppends(s: seq<Entry>, e: Entry)
    ensures Group(s + [e]) == Absorb(Group(s), e)
  {
    assert (s + [e])[..|s|] == s;
  }

  lemma GroupOfNormal(s: seq<Entry>)
    ensures WellKeyed(Latest(Group(s)))
    ensures Group(Normal(s)) == Latest(Group(s))
  {
    GroupIsWellKeyed(s);
    GroupOfInOrder(Latest(Group(s)));
  }

  /** Normalising twice is normalising once. */
  lemma NormalIdempotent(s: seq<Entry>)
    ensures Normal(Normal(s)) == Normal(s)
  {
    GroupOfNormal(s);
    GroupIsWellKeyed(s);
    LatestAbsorbs(Group(s), None);
  }

  lemma NormalAppends(s: seq<Entry>, e: Entry)
    ensures Normal(Normal(s) + [e]) == Normal(s + [e])
  {
    GroupOfNormal(s);
    GroupIsWellKeyed(s);
    GroupAppends(Normal(s), e);
    GroupAppends(s, e);
    LatestAbsorbs(Group(s), e);
  }

  /** A normal form is strictly ascending, has positive hours and at most 168 buckets: those of the hours with less than
      168 later ones. */
  lemma NormalShape(s: seq<Entry>)
    ensures |Normal(s)| <= 168
    ensures Sorted(Normal(s))
    ensures forall e :: e in Normal(s) ==> e.Some? && e.value.hour > 0
    ensures forall e :: e in Normal(s) <==>
                e.Some? && e.value.hour in Group(s) && Group(s)[e.value.hour] == e.value &&
                |set h | h in Group(s) && h > e.value.hour| < 168
  {
    GroupIsWellKeyed(s);
    LastAreLatest(Group(s), MAX_BUCKETS);
    assert |Last(InOrder(Group(s)), MAX_BUCKETS)| <= MAX_BUCKETS;
    InOrderSorted(Latest(Group(s)));
    forall h ensures (set j | j in Group(s) && j > h) == Above(Group(s).Keys, h) {
    }
  }

  // ---------- order of arrival ----------

  lemma AbsorbCommutes(m: Hours, a: Entry, b: Entry)
    requires WellKeyed(m)
    ensures Absorb(Absorb(m, a), b) == Absorb(Absorb(m, b), a)
  {
    if Usable(a) && Usable(b) && a.value.hour == b.value.hour {
      var h := a.value.hour;
      if h in m {
        Add64Swaps(a.value.rx, b.value.rx, m[h].rx);
        Add64Swaps(a.value.tx, b.value.tx, m[h].tx);
        assert Merge(Merge(m[h], a.value), b.value) == Merge(Merge(m[h], b.value), a.value);
      } else {
        assert Merge(a.value, b.value) == Merge(b.value, a.value);
      }
    }
  }

  lemma {:induction false} GroupMoves(s: seq<Entry>, e: Entry, t: seq<Entry>)
    ensures Group(s + [e] + t) == Absorb(Group(s + t), e)
  {
    if t == [] {
      assert s + [e] + t == s + [e] && s + t == s;
      GroupAppends(s, e);
    } else {
      var front, last := t[..|t| - 1], t[|t| - 1];
      assert s + [e] + t == (s + [e] + front) + [last];
      assert s + t == (s + front) + [last];
      GroupAppends(s + [e] + front, last);
      GroupAppends(s + front, last);
      GroupMoves(s, e, front);
      GroupIsWellKeyed(s + front);
      AbsorbCommutes(Group(s + front), e, last);
    }
  }

  /** Only which entries there are matters, not their order. */
  lemma {:induction false} NormalIgnoresOrder(s: seq<Entry>, t: seq<Entry>)
    requires multiset(s) == multiset(t)
    ensures Group(s) == Group(t)
    ensures Normal(s) == Normal(t)
  {
    if s == [] {
      assert |t| == |multiset(t)| == 0;
    } else {
      var front, last := s[..|s| - 1], s[|s| - 1];
      assert s == front + [last];
      assert last in multiset(t);
      var i :| 0 <= i < |t| && t[i] == last;
      assert t == t[..i] + [last] + t[i + 1..];
      assert multiset(front) == multiset(s) - multiset{last};
      assert multiset(t[..i] + t[i + 1..]) == multiset(t) - multiset{last};
      NormalIgnoresOrder(front, t[..i] + t[i + 1..]);
      GroupMoves(t[..i], last, t[i + 1..]);
      GroupAppends(front, last);
    }
  }

  // ---------- streaming equals batch ----------

  /** One measurement: the time it was taken and what it adds. */
  datatype Sample = Sample(now: int, maxSpeed: Speed, rx: Uint64, tx: Uint64, users: nat, inbounds: nat)

  type Uint32 = x: nat | x < 0x1_0000_0000

  const NANOS: int := 1_000_000_000
  const HOUR_NANOS: int := 3_600_000_000_000

  /** Arithmetic of Go's int64, which wraps around. */
  function Wrap64(x: int): (y: int)
    ensures -0x8000_0000_0000_0000 <= y < 0x8000_0000_0000_0000
  {
    (x + 0x8000_0000_0000_0000) % 0x1_0000_0000_0000_0000 - 0x8000_0000_0000_0000
  }

  /** time.Truncate(time.Hour) on Unix seconds, which rounds towards the past. */
  function HourOf(now: int): int {
    now / SECONDS_PER_HOUR * SECONDS_PER_HOUR
  }

  function AsEntry(x: Sample): Entry {
    Some(Bucket(HourOf(x.now), x.maxSpeed, x.rx, x.tx, x.users, x.inbounds))
  }

  function AsEntries(samples: seq<Sample>): seq<Entry> {
    if samples == [] then [] else AsEntries(samples[..|samples| - 1]) + [AsEntry(samples[|samples| - 1])]
  }

  lemma {:induction false} AsEntriesAppends(s: seq<Sample>, t: seq<Sample>)
    ensures AsEntries(s + t) == AsEntries(s) + AsEntries(t)
  {
    if t == [] {
      assert s + t == s;
    } else {
      AsEntriesAppends(s, t[..|t| - 1]);
      assert (s + t)[..|s + t| - 1] == s + t[..|t| - 1];
    }
  }

  /** The history after the samples arrived one by one, each followed by a normalisation. */
  ghost function Streamed(start: seq<Entry>, samples: seq<Sample>): seq<Entry> {
    if samples == [] then Normal(start)
    else Normal(Streamed(start, samples[..|samples| - 1]) + [AsEntry(samples[|samples| - 1])])
  }

  /** Trimming to 168 hours at every step loses nothing that one trim at the end would have kept,
      whatever the order in which the samples arrive. */
  lemma {:induction false} StreamingEqualsBatch(start: seq<Entry>, samples: seq<Sample>, arrival: seq<Sample>)
    requires multiset(samples) == multiset(arrival)
    ensures Streamed(start, arrival) == Normal(start + AsEntries(samples))
  {
    StreamedIsNormal(start, arrival);
    EntriesPermute(samples, arrival);
    NormalIgnoresOrder(start + AsEntries(samples), start + AsEntries(arrival));
  }

  lemma {:induction false} StreamedIsNormal(start: seq<Entry>, samples: seq<Sample>)
    ensures Streamed(start, samples) == Normal(start + AsEntries(samples))
  {
    if samples == [] {
      assert start + AsEntries(samples) == start;
    } else {
      var front, last := samples[..|samples| - 1], samples[|samples| - 1];
      StreamedIsNormal(start, front);
      NormalAppends(start + AsEntries(front), AsEntry(last));
      assert start + AsEntries(samples) == start + AsEntries(front) + [AsEntry(last)];
    }
  }

  lemma EntriesAround(a: seq<Sample>, x: Sample, c: seq<Sample>)
    ensures AsEntries(a + [x] + c) == AsEntries(a) + [AsEntry(x)] + AsEntries(c)
  {
    AsEntriesAppends(a + [x], c);
    assert (a + [x])[..|a + [x]| - 1] == a;
  }

  lemma Shuffle<T>(a: seq<T>, x: T, c: seq<T>)
    ensures multiset(a + [x] + c) == multiset(a + c) + multiset{x}
  {
  }

  lemma EntriesTakeOut(a: seq<Sample>, x: Sample, c: seq<Sample>)
    ensures multiset(AsEntries(a + [x] + c)) == multiset(AsEntries(a + c)) + multiset{AsEntry(x)}
  {
    EntriesAround(a, x, c);
    AsEntriesAppends(a, c);
    Shuffle(AsEntries(a), AsEntry(x), AsEntries(c));
  }

  lemma Cancels<T>(m: multiset<T>, n: multiset<T>, x: T)
    requires m + multiset{x} == n + multiset{x}
    ensures m == n
  {
    assert m == (m + multiset{x}) - multiset{x};
  }

  lemma Find<T>(front: seq<T>, x: T, t: seq<T>) returns (a: seq<T>, c: seq<T>)
    requires multiset(front + [x]) == multiset(t)
    ensures t == a + [x] + c && multiset(front) == multiset(a + c)
  {
    assert multiset(front + [x]) == multiset(front) + multiset{x};
    assert x in multiset(t);
    var i :| 0 <= i < |t| && t[i] == x;
    a, c := t[..i], t[i + 1..];
    assert t == a + [x] + c;
    Shuffle(a, x, c);
    Cancels(multiset(front), multiset(a + c), x);
  }

  lemma {:induction false} EntriesPermute(s: seq<Sample>, t: seq<Sample>)
    requires multiset(s) == multiset(t)
    ensures multiset(AsEntries(s)) == multiset(AsEntries(t))
  {
    if s == [] {
      assert |t| == |multiset(t)| == 0;
    } else {
      var front, x := s[..|s| - 1], s[|s| - 1];
      assert s == front + [x];
      var a, c := Find(front, x, t);
      EntriesPermute(front, a + c);
      EntriesTakeOut(a, x, c);
    }
  }

  // ---------- an independent reading of a bucket ----------

  /** The usable entries of one hour. */
  function At(s: seq<Entry>, h: int): seq<Bucket> {
    if s == [] then [] else
      var last := s[|s| - 1];
      At(s[..|s| - 1], h) + if Usable(last) && last.value.hour == h then [last.value] else []
  }

  /** total, over a group of entries, of what f reads from each. */
  function Total(group: seq<Bucket>, f: Bucket -> Uint64): Uint64 {
    if group == [] then 0 else Add64(Total(group[..|group| - 1], f), f(group[|group| - 1]))
  }

  ghost predicate IsPeak(group: seq<Bucket>, b: Bucket) {
    && (forall g :: g in group ==> g.maxSpeed <= b.maxSpeed && g.users <= b.users && g.inbounds <= b.inbounds)
    && (exists g :: g in group && g.maxSpeed == b.maxSpeed)
    && (exists g :: g in group && g.users == b.users)
    && (exists g :: g in group && g.inbounds == b.inbounds)
  }

  lemma {:induction false} GroupedAt(s: seq<Entry>, h: int)
    ensures h in Group(s) <==> At(s, h) != []
    ensures h in Group(s) ==> Group(s)[h] == Merged(At(s, h))
  {
    if s != [] {
      var front, last := s[..|s| - 1], s[|s| - 1];
      GroupedAt(front, h);
      if Usable(last) && last.value.hour == h {
        assert At(s, h)[..|At(s, h)| - 1] == At(front, h);
      } else {
        assert At(s, h) == At(front, h);
      }
    }
  }

  function Merged(group: seq<Bucket>): Bucket
    requires group != []
  {
    if |group| == 1 then group[0] else Merge(Merged(group[..|group| - 1]), group[|group| - 1])
  }

  lemma {:induction false} MergedMeaning(group: seq<Bucket>)
    requires group != []
    ensures Merged(group).rx == Total(group, (b: Bucket) => b.rx) &&
            Merged(group).tx == Total(group, (b: Bucket) => b.tx)
    ensures IsPeak(group, Merged(group))
  {
    var front, last := group[..|group| - 1], group[|group| - 1];
    if |group| == 1 {
      assert front == [] && Total(front, (b: Bucket) => b.rx) == 0 && Total(front, (b: Bucket) => b.tx) == 0;
      assert group[0] in group;
    } else {
      MergedMeaning(front);
      PeakGrows(front, Merged(front), last);
      assert group == front + [last];
    }
  }

  lemma PeakGrows(front: seq<Bucket>, b: Bucket, last: Bucket)
    requires IsPeak(front, b)
    ensures IsPeak(front + [last], Merge(b, last))
  {
    var group := front + [last];
    assert last in group && forall g :: g in front ==> g in group;
  }

  lemma {:induction false} AtMeaning(s: seq<Entry>, h: int)
    ensures At(s, h) != [] <==> h > 0 && exists b :: Some(b) in s && b.hour == h
  {
    if s != [] {
      var last := s[|s| - 1];
      AtMeaning(s[..|s| - 1], h);
      assert forall e :: e in s <==> e in s[..|s| - 1] || e == last;
      assert last.Some? ==> last == Some(last.value);
    }
  }

  /** Every positive hour with an entry has a bucket: the sum of the traffic and the peak of the gauges of the hour's
      entries. */
  lemma GroupMeaning(s: seq<Entry>, h: int)
    ensures h in Group(s) <==> h > 0 && exists b :: Some(b) in s && b.hour == h
    ensures h in Group(s) <==> At(s, h) != []
    ensures h in Group(s) ==>
              && Group(s)[h].rx == Total(At(s, h), (b: Bucket) => b.rx)
              && Group(s)[h].tx == Total(At(s, h), (b: Bucket) => b.tx)
              && IsPeak(At(s, h), Group(s)[h])
  {
    GroupedAt(s, h);
    AtMeaning(s, h);
    if At(s, h) != [] {
      MergedMeaning(At(s, h));
    }
  }

  // ---------- conservation ----------

  ghost function TrafficIn(m: Hours): map<int, Uint64> {
    map h | h in m :: m[h].rx
  }

  /** The traffic of all usable entries whose hour is in (or, with out, not in) a set of hours. */
  ghost function TrafficOf(s: seq<Entry>, hours: set<int>, out: bool): Uint64 {
    if s == [] then 0 else
      var last := s[|s| - 1];
      Add64(TrafficOf(s[..|s| - 1], hours, out),
            if Usable(last) && (last.value.hour in hours) != out then last.value.rx else 0)
  }

  ghost function AllTraffic(s: seq<Entry>): Uint64 {
    TrafficOf(s, {}, true)
  }

  lemma {:induction false} TrafficSplits(s: seq<Entry>, hours: set<int>)
    ensures Add64(TrafficOf(s, hours, false), TrafficOf(s, hours, true)) == AllTraffic(s)
  {
    if s != [] {
      TrafficSplits(s[..|s| - 1], hours);
    }
  }

  ghost function Restricted(m: Hours, hours: set<int>): Hours {
    map h | h in m && h in hours :: m[h]
  }

  lemma TrafficAppends(s: seq<Entry>, hours: set<int>)
    requires s != []
    ensures var b := TrafficIn(Restricted(Group(s[..|s| - 1]), hours));
            TrafficIn(Restricted(Group(s), hours)) ==
            match s[|s| - 1]
            case Some(x) => if x.hour > 0 && x.hour in hours then b[x.hour := Add64(GetOr(b, x.hour, 0), x.rx)] else b
            case None => b
  {
  }

  lemma {:induction false} GroupedTraffic(s: seq<Entry>, hours: set<int>)
    ensures Sum64(TrafficIn(Restricted(Group(s), hours))) == TrafficOf(s, hours, false)
  {
    if s == [] {
      assert TrafficIn(Restricted(Group(s), hours)) == map[];
    } else {
      var front, last := s[..|s| - 1], s[|s| - 1];
      GroupedTraffic(front, hours);
      TrafficAppends(s, hours);
      if Usable(last) && last.value.hour in hours {
        SumAfterAdd(TrafficIn(Restricted(Group(front), hours)), last.value.hour, last.value.rx);
      }
    }
  }

  /** Conservation: the traffic kept in the retained buckets, plus that of the samples whose hour
      was evicted, is the traffic of all samples. */
  lemma HistoryConserves(s: seq<Entry>)
    ensures Add64(Sum64(TrafficIn(Latest(Group(s)))), TrafficOf(s, Top(Group(s).Keys), true)) == AllTraffic(s)
  {
    var kept := Top(Group(s).Keys);
    assert Latest(Group(s)) == Restricted(Group(s), kept);
    GroupedTraffic(s, kept);
    TrafficSplits(s, kept);
  }

  // ---------- the operations ----------

  predicate DistinctHours(s: seq<Entry>) {
    s == [] || (
      var front, last := s[..|s| - 1], s[|s| - 1];
      Usable(last) && DistinctHours(front) && last.value.hour !in Group(front))
  }

  method InsertByHour(r: seq<Entry>, b: Bucket) returns (r': seq<Entry>)
    ensures r' == Insert(r, b)
  {
    var p := |r|;
    assert r[..p] == r && r[p..] == [];
    while p > 0 && r[p - 1] != None && r[p - 1].value.hour >= b.hour
      invariant 0 <= p <= |r|
      invariant Insert(r, b) == Insert(r[..p], b) + r[p..]
    {
      assert r[..p][..p - 1] == r[..p - 1] && r[..p][p - 1] == r[p - 1];
      p := p - 1;
      assert [r[p]] + r[p + 1..] == r[p..];
    }
    r' := r[..p] + [Some(b)] + r[p..];
  }

  /** sort.Slice by hour, on buckets of distinct hours. */
  method SortByHour(s: seq<Entry>) returns (r: seq<Entry>)
    requires DistinctHours(s)
    ensures r == InOrder(Group(s))
  {
    r := [];
    var n := 0;
    DistinctPrefix(s, 0);
    while n < |s|
      invariant 0 <= n <= |s|
      invariant r == InOrder(Group(s[..n]))
    {
      DistinctPrefix(s, n + 1);
      assert s[..n + 1][..n] == s[..n];
      GroupIsWellKeyed(s[..n]);
      InsertInOrder(Group(s[..n]), s[n].value);
      r := InsertByHour(r, s[n].value);
      n := n + 1;
    }
    assert s[..|s|] == s;
  }

  lemma {:induction false} DistinctPrefix(s: seq<Entry>, n: nat)
    requires DistinctHours(s) && n <= |s|
    ensures DistinctHours(s[..n])
    decreases |s|
  {
    if n < |s| {
      DistinctPrefix(s[..|s| - 1], n);
      assert s[..|s| - 1][..n] == s[..n];
    } else {
      assert s[..n] == s;
    }
  }

  /** Adding one usable entry to the buckets, field by field. */
  method AbsorbEntry(byHour: Hours, metric: Bucket) returns (r: Hours)
    requires metric.hour > 0
    ensures r == Absorb(byHour, Some(metric))
  {
    if metric.hour !in byHour {
      return byHour[metric.hour := metric];
    }
    var bucket := byHour[metric.hour];
    if metric.maxSpeed > bucket.maxSpeed {
      bucket := bucket.(maxSpeed := metric.maxSpeed);
    }
    bucket := bucket.(rx := Add64(bucket.rx, metric.rx));
    bucket := bucket.(tx := Add64(bucket.tx, metric.tx));
    if metric.users > bucket.users {
      bucket := bucket.(users := metric.users);
    }
    if metric.inbounds > bucket.inbounds {
      bucket := bucket.(inbounds := metric.inbounds);
    }
    r := byHour[metric.hour := bucket];
  }

  /** The buckets of a map, in the arbitrary order of map iteration. */
  method CollectBuckets(byHour: Hours) returns (result: seq<Entry>)
    requires WellKeyed(byHour)
    ensures DistinctHours(result) && Group(result) == byHour
  {
    result := [];
    var rest := byHour.Keys;
    while rest != {}
      invariant rest <= byHour.Keys
      invariant DistinctHours(result)
      invariant Group(result) == Restricted(byHour, byHour.Keys - rest)
    {
      var h := AnyOf(rest);
      CollectStep(byHour, result, rest, h);
      result := result + [Some(byHour[h])];
      rest := rest - {h};
    }
    assert Restricted(byHour, byHour.Keys - rest) == byHour;
  }

  lemma CollectStep(byHour: Hours, result: seq<Entry>, rest: set<int>, h: int)
    requires WellKeyed(byHour) && h in rest && rest <= byHour.Keys
    requires DistinctHours(result) && Group(result) == Restricted(byHour, byHour.Keys - rest)
    ensures DistinctHours(result + [Some(byHour[h])])
    ensures Group(result + [Some(byHour[h])]) == Restricted(byHour, byHour.Keys - (rest - {h}))
  {
    var more := result + [Some(byHour[h])];
    assert more[..|more| - 1] == result && h !in Group(result);
    GroupAppends(result, Some(byHour[h]));
    RestrictedGrows(byHour, byHour.Keys - rest, h);
    assert byHour.Keys - (rest - {h}) == byHour.Keys - rest + {h};
  }

  lemma RestrictedGrows(m: Hours, hours: set<int>, h: int)
    requires h in m
    ensures Restricted(m, hours + {h}) == Restricted(m, hours)[h := m[h]]
  {
  }

  /** normalizeHourlyMetrics: group by hour, collect, sort, keep the last 168. */
  method Normalize(metrics: seq<Entry>) returns (result: seq<Entry>)
    ensures result == Normal(metrics)
  {
    if |metrics| == 0 {
      assert Latest(Group(metrics)) == map[];
      return [];
    }
    var byHour: Hours := map[];
    for i := 0 to |metrics|
      invariant byHour == Group(metrics[..i])
    {
      var metric := metrics[i];
      assert metrics[..i + 1] == metrics[..i] + [metric];
      GroupAppends(metrics[..i], metric);
      if metric == None || metric.value.hour <= 0 {
        continue;
      }
      byHour := AbsorbEntry(byHour, metric.value);
    }
    assert metrics[..|metrics|] == metrics;
    GroupIsWellKeyed(metrics);
    result := CollectBuckets(byHour);
    result := SortByHour(result);
    LastAreLatest(byHour, MAX_BUCKETS);
    if |result| > MAX_BUCKETS {
      result := result[|result| - MAX_BUCKETS..];
    }
  }

  /** The bucket list of the metrics state. */
  class History {
    var hourly: seq<Entry>

    /** Loading a persisted list normalises it. */
    constructor (persisted: seq<Entry>)
      ensures hourly == Normal(persisted)
    {
      var normalized := Normalize(persisted);
      hourly := normalized;
    }

    /** updateHourlyMetricsLocked: normalise, find or append the bucket of the hour, raise and add,
        normalise again. Together these steps add one entry to the history. */
    method Record(sample: Sample)
      modifies this
      ensures hourly == Normal(old(hourly) + [AsEntry(sample)])
      ensures var start := sample.now - sample.now % 3600;
              hourly == Normal(old(hourly) + [Some(Bucket(start, sample.maxSpeed, sample.rx, sample.tx, sample.users,
                                                          sample.inbounds))])
    {
      hide Normal, Group, Sorted, Usable;
      hourly := Normalize(hourly);
      ghost var start := hourly;
      var hourStart := HourOf(sample.now);
      var found := 0;
      while found < |hourly| && !(hourly[found] != None && hourly[found].value.hour == hourStart)
        invariant 0 <= found <= |hourly|
        invariant forall i :: 0 <= i < found ==> hourly[i] == None || hourly[i].value.hour != hourStart
      {
        found := found + 1;
      }
      if found == |hourly| {
        hourly := hourly + [Some(Bucket(hourStart, 0.0, 0, 0, 0, 0))];
      }
      var bucket := hourly[found].value;
      if sample.maxSpeed > bucket.maxSpeed {
        bucket := bucket.(maxSpeed := sample.maxSpeed);
      }
      bucket := bucket.(rx := Add64(bucket.rx, sample.rx));
      bucket := bucket.(tx := Add64(bucket.tx, sample.tx));
      if sample.users > bucket.users {
        bucket := bucket.(users := sample.users);
      }
      if sample.inbounds > bucket.inbounds {
        bucket := bucket.(inbounds := sample.inbounds);
      }
      hourly := hourly[found := Some(bucket)];
      RecordedGroup(start, sample, found, hourly);
      NormalAppends(old(hourly), AsEntry(sample));
      hourly := Normalize(hourly);
    }

    /** hourlyMetricsLocked, at a time in nanoseconds: the filter overwrites the front of a fresh array, and the stored
        list only changes up to normalisation. The answer is in order of time. With a start or an end it holds the
        stored buckets from the hour of the start to the hour of the end, where a bound before one hour after the
        epoch is no bound; otherwise those of the last hours, counted back from the hour now, or all of them. */
    method Query(hours: Uint32, fromUnix: int, toUnix: int, now: int) returns (result: seq<Entry>)
      modifies this
      ensures hourly == Normal(old(hourly))
      ensures result == Select(hourly, LowerBound(hours, fromUnix, toUnix, now), UpperBound(fromUnix, toUnix))
      ensures Sorted(result)
      ensures fromUnix > 0 || toUnix > 0 ==>
                forall e :: e in result <==>
                            && e in hourly && e.Some?
                            && (fromUnix >= 3600 ==> fromUnix - fromUnix % 3600 <= e.value.hour)
                            && (toUnix >= 3600 ==> e.value.hour <= toUnix - toUnix % 3600)
      ensures fromUnix <= 0 && toUnix <= 0 && 0 < hours <= 2562047 ==>
                var start := now / 1_000_000_000 - hours * 3600;
                forall e :: e in result <==>
                            && e in hourly && e.Some?
                            && start - start % 3600 <= e.value.hour
      ensures fromUnix <= 0 && toUnix <= 0 && hours == 0 ==> result == hourly
    {
      hourly := Normalize(hourly);
      NormalIdempotent(old(hourly));
      NormalShape(old(hourly));
      var metrics := Normalize(hourly);
      if fromUnix > 0 || toUnix > 0 {
        var fromHour, toHour := 0, 0;
        if fromUnix > 0 {
          fromHour := HourOf(fromUnix);
        }
        if toUnix > 0 {
          toHour := HourOf(toUnix);
        }
        result := Filtered(metrics, if fromHour > 0 then Some(fromHour) else None, if toHour > 0 then Some(toHour)
          else None);
      } else if hours > 0 {
        var duration := Wrap64(hours * HOUR_NANOS);
        var cutoff := HourOf((now + Wrap64(-duration)) / NANOS);
        result := Filtered(metrics, Some(cutoff), None);
      } else {
        SelectAll(metrics);
        result := metrics;
      }
      WindowMeaning(metrics, hours, fromUnix, toUnix, now);
    }
  }

  /** The filter reuses the array that backs the list it reads. */
  method Filtered(metrics: seq<Entry>, lower: Option<int>, upper: Option<int>) returns (result: seq<Entry>)
    ensures result == Select(metrics, lower, upper)
  {
    var backing := new Entry[|metrics|](i requires 0 <= i < |metrics| => metrics[i]);
    assert backing[..] == metrics;
    var kept := FilterInPlace(backing, lower, upper);
    result := backing[..kept];
  }

  /** Raising a bucket of the sample's hour in place, or appending one, groups like one more entry. */
  lemma RecordedGroup(start: seq<Entry>, sample: Sample, found: nat, after: seq<Entry>)
    requires found <= |start|
    requires found < |start| ==> start[found].Some? && start[found].value.hour == HourOf(sample.now)
    requires after == if found < |start| then start[found := Some(Merge(start[found].value, AsEntry(sample).value))]
               else start + [AsEntry(sample)]
    ensures Normal(after) == Normal(start + [AsEntry(sample)])
  {
    if found < |start| {
      var a, x, b, c := start[..found], start[found], AsEntry(sample), start[found + 1..];
      assert start == a + [x] + c && after == a + [after[found]] + c;
      GroupMoves(a, x, c);
      GroupMoves(a, after[found], c);
      GroupAppends(start, b);
      var m, h := Group(a + c), HourOf(sample.now);
      if h > 0 {
        if h in m {
          Add64Swaps(m[h].rx, x.value.rx, b.value.rx);
          Add64Swaps(m[h].tx, x.value.tx, b.value.tx);
          assert Merge(m[h], Merge(x.value, b.value)) == Merge(Merge(m[h], x.value), b.value);
        }
        assert Absorb(Absorb(m, x), b) == Absorb(m, after[found]);
      }
    }
  }

  // ---------- the window query ----------

  /** The first hour of a window of some hours before a time in nanoseconds: a Duration has 64 bits. */
  function Cutoff(hours: Uint32, now: int): int {
    HourOf((now + Wrap64(-Wrap64(hours * HOUR_NANOS))) / NANOS)
  }

  /** The first hour of the window, if it has a lower bound. */
  function LowerBound(hours: Uint32, fromUnix: int, toUnix: int, now: int): Option<int> {
    if fromUnix > 0 || toUnix > 0 then (if HourOf(fromUnix) > 0 then Some(HourOf(fromUnix)) else None)
    else if hours > 0 then Some(Cutoff(hours, now))
    else None
  }

  /** The last hour of the window, if it has an upper bound: an hour of 0 stands for none. */
  function UpperBound(fromUnix: int, toUnix: int): Option<int> {
    if toUnix > 0 && HourOf(toUnix) > 0 then Some(HourOf(toUnix)) else None
  }

  predicate Inside(e: Entry, lower: Option<int>, upper: Option<int>) {
    e.Some? && (lower.Some? ==> lower.value <= e.value.hour) && (upper.Some? ==> e.value.hour <= upper.value)
  }

  function Select(s: seq<Entry>, lower: Option<int>, upper: Option<int>): seq<Entry> {
    if s == [] then [] else
      Select(s[..|s| - 1], lower, upper) + if Inside(s[|s| - 1], lower, upper) then [s[|s| - 1]] else []
  }

  /** Filtering into the front of the array that is being read. */
  method FilterInPlace(a: array<Entry>, lower: Option<int>, upper: Option<int>) returns (kept: nat)
    modifies a
    ensures kept <= a.Length
    ensures a[..kept] == Select(old(a[..]), lower, upper)
  {
    kept := 0;
    ghost var was := a[..];
    for i := 0 to a.Length
      invariant 0 <= kept <= i
      invariant a[..kept] == Select(was[..i], lower, upper)
      invariant a[i..] == was[i..]
    {
      assert a[i] == was[i] by {
        assert a[i..][0] == was[i..][0];
      }
      assert was[..i + 1][..i] == was[..i];
      assert a[i + 1..] == was[i + 1..] by {
        assert a[i..][1..] == was[i..][1..];
      }
      if Inside(a[i], lower, upper) {
        a[kept] := a[i];
        kept := kept + 1;
        assert a[..kept] == a[..kept - 1] + [was[i]];
      }
    }
    assert was[..a.Length] == was;
  }

  lemma {:induction false} SelectAll(s: seq<Entry>)
    requires forall e :: e in s ==> e.Some?
    ensures Select(s, None, None) == s
  {
    if s != [] {
      SelectAll(s[..|s| - 1]);
      assert s == s[..|s| - 1] + [s[|s| - 1]];
    }
  }

  lemma {:induction false} SelectHolds(s: seq<Entry>, lower: Option<int>, upper: Option<int>, e: Entry)
    ensures e in Select(s, lower, upper) <==> e in s && Inside(e, lower, upper)
  {
    if s != [] {
      SelectHolds(s[..|s| - 1], lower, upper, e);
      assert e in s <==> e in s[..|s| - 1] || e == s[|s| - 1];
    }
  }

  lemma SortedAppends(s: seq<Entry>, e: Entry)
    requires Sorted(s) && e.Some?
    requires forall x :: x in s ==> x.Some? && x.value.hour < e.value.hour
    ensures Sorted(s + [e])
  {
    assert (s + [e])[..|s + [e]| - 1] == s;
  }

  lemma {:induction false} SelectSorted(s: seq<Entry>, lower: Option<int>, upper: Option<int>)
    requires Sorted(s)
    ensures Sorted(Select(s, lower, upper))
  {
    if s != [] {
      var front, last := s[..|s| - 1], s[|s| - 1];
      SelectSorted(front, lower, upper);
      var kept := Select(front, lower, upper);
      forall e | e in kept ensures e.Some? && e.value.hour < last.value.hour {
        SelectHolds(front, lower, upper, e);
      }
      SortedAppends(kept, last);
      assert Select(s, lower, upper) == kept || Select(s, lower, upper) == kept + [last];
    }
  }

  /** A window holds exactly the buckets inside it, still in order. */
  lemma SelectMeaning(s: seq<Entry>, lower: Option<int>, upper: Option<int>)
    requires Sorted(s)
    ensures Sorted(Select(s, lower, upper))
    ensures forall e :: e in Select(s, lower, upper) <==> e in s && Inside(e, lower, upper)
  {
    SelectSorted(s, lower, upper);
    forall e ensures e in Select(s, lower, upper) <==> e in s && Inside(e, lower, upper) {
      SelectHolds(s, lower, upper, e);
    }
  }

  /** A positive end of the window bounds every answer exactly when it is at least one hour after the
      epoch: an end inside the first hour truncates to 0, which the query reads as no bound at all. */
  lemma UpperBoundHonoured(fromUnix: int, toUnix: int)
    requires toUnix > 0
    ensures (forall s: seq<Entry>, e: Entry :: e in Select(s, None, UpperBound(fromUnix, toUnix)) ==>
              e.Some? && e.value.hour <= HourOf(toUnix))
            <==> toUnix >= SECONDS_PER_HOUR
  {
    if toUnix >= SECONDS_PER_HOUR {
      forall s: seq<Entry>, e: Entry | e in Select(s, None, UpperBound(fromUnix, toUnix))
        ensures e.Some? && e.value.hour <= HourOf(toUnix)
      {
        SelectHolds(s, None, UpperBound(fromUnix, toUnix), e);
      }
    } else {
      var e: Entry := Some(Bucket(SECONDS_PER_HOUR, 0.0, 0, 0, 0, 0));
      assert [e][..0] == [];
      assert e in Select([e], None, UpperBound(fromUnix, toUnix));
    }
  }

  lemma LaterHour(x: int, y: int)
    requires x >= y + SECONDS_PER_HOUR
    ensures HourOf(x) > HourOf(y)
  {
  }

  lemma WrapsAway(p: int)
    requires p >= 0
    ensures p < 0x8000_0000_0000_0000 ==> Wrap64(-Wrap64(p)) == -p
    ensures p > 0x8000_0000_0000_0000 ==> Wrap64(-Wrap64(p)) + p >= 0x1_0000_0000_0000_0000
  {
    var d := Wrap64(p);
    var n := Wrap64(-d);
    var j, k := (p + 0x8000_0000_0000_0000) / 0x1_0000_0000_0000_0000,
      (-d + 0x8000_0000_0000_0000) / 0x1_0000_0000_0000_0000;
    assert d == p - j * 0x1_0000_0000_0000_0000 && n == -d - k * 0x1_0000_0000_0000_0000;
    assert n + p == (j - k) * 0x1_0000_0000_0000_0000;
  }

  /** A window of some hours begins that many hours ago, exactly up to 2562047 hours: beyond, the duration
      overflows and the window begins at least five hundred years later than asked for. */
  lemma HoursHonoured(hours: Uint32, now: int)
    ensures Cutoff(hours, now) == HourOf(now / NANOS - hours * SECONDS_PER_HOUR) <==> hours <= 2562047
  {
    var p := hours * HOUR_NANOS;
    WrapsAway(p);
    assert p == hours * SECONDS_PER_HOUR * NANOS;
    if hours <= 2562047 {
      assert p < 0x8000_0000_0000_0000;
      assert (now - p) / NANOS == now / NANOS - hours * SECONDS_PER_HOUR;
    } else {
      assert p > 0x8000_0000_0000_0000;
      var n := Wrap64(-Wrap64(p));
      assert (now - p) / NANOS == now / NANOS - hours * SECONDS_PER_HOUR;
      assert (now + n) / NANOS >= (now - p) / NANOS + SECONDS_PER_HOUR;
      LaterHour((now + n) / NANOS, now / NANOS - hours * SECONDS_PER_HOUR);
    }
  }

  /** What the two bounds of a query let through, in hours: a start or an end counts from one hour after the epoch on,
      the number of hours only without either of them. */
  lemma WindowMeaning(s: seq<Entry>, hours: Uint32, fromUnix: int, toUnix: int, now: int)
    requires Sorted(s)
    ensures Sorted(Select(s, LowerBound(hours, fromUnix, toUnix, now), UpperBound(fromUnix, toUnix)))
    ensures var window := Select(s, LowerBound(hours, fromUnix, toUnix, now), UpperBound(fromUnix, toUnix));
            fromUnix > 0 || toUnix > 0 ==>
              forall e :: e in window <==>
                          && e in s && e.Some?
                          && (fromUnix >= 3600 ==> fromUnix - fromUnix % 3600 <= e.value.hour)
                          && (toUnix >= 3600 ==> e.value.hour <= toUnix - toUnix % 3600)
    ensures var window := Select(s, LowerBound(hours, fromUnix, toUnix, now), UpperBound(fromUnix, toUnix));
            fromUnix <= 0 && toUnix <= 0 && 0 < hours <= 2562047 ==>
              var start := now / 1_000_000_000 - hours * 3600;
              forall e :: e in window <==>
                          && e in s && e.Some?
                          && start - start % 3600 <= e.value.hour
    ensures var window := Select(s, LowerBound(hours, fromUnix, toUnix, now), UpperBound(fromUnix, toUnix));
            fromUnix <= 0 && toUnix <= 0 && hours == 0 ==> window == s
  {
    var lower, upper := LowerBound(hours, fromUnix, toUnix, now), UpperBound(fromUnix, toUnix);
    SelectMeaning(s, lower, upper);
    HoursHonoured(hours, now);
    SortedSome(s);
    if fromUnix <= 0 && toUnix <= 0 && hours == 0 {
      SelectAll(s);
    }
  }

  lemma {:induction false} SortedSome(s: seq<Entry>)
    requires Sorted(s)
    ensures forall e :: e in s ==> e.Some?
  {
    if s != [] {
      SortedSome(s[..|s| - 1]);
    }
  }
}
