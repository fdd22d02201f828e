/** Notions shared by several components: options, unsigned 64-bit addition, sums over maps,
    and the two library operations on strings that the code leans on, trimming and ordering. */
module Common {

  datatype Option<+T> = None | Some(value: T)

  // ---------- looking up ----------

  function Get<K, V>(m: map<K, V>, k: K): Option<V> {
    if k in m then Some(m[k]) else None
  }

  function GetOr<K, V>(m: map<K, V>, k: K, default: V): V {
    if k in m then m[k] else default
  }

  /** Maps that give the same answers are the same. */
  lemma SameMap<K, V>(a: map<K, V>, b: map<K, V>)
    requires forall k :: k in a.Keys + b.Keys ==> Get(a, k) == Get(b, k)
    ensures a == b
  {
    forall k | k in a.Keys + b.Keys ensures k in a && k in b && a[k] == b[k] {
      assert Get(a, k) == Get(b, k);
    }
    assert a.Keys == b.Keys;
  }

  // ---------- an arbitrary element ----------

  ghost function Pick<T>(s: set<T>): (x: T)
    requires s != {}
    ensures x in s
  {
    var x :| x in s;
    x
  }

  /** Go visits the keys of a map in an arbitrary order. */
  method AnyOf<T>(s: set<T>) returns (x: T)
    requires s != {}
    ensures x in s
  {
    x :| x in s;
  }

  // ---------- unsigned 64-bit arithmetic ----------

  const TWO_TO_THE_64: int := 0x1_0000_0000_0000_0000
  type Uint64 = x: nat | x < TWO_TO_THE_64

  /** Addition of Go's uint64, which wraps around. */
  function Add64(a: Uint64, b: Uint64): Uint64 {
    if a + b < TWO_TO_THE_64 then a + b else a + b - TWO_TO_THE_64
  }

  lemma Add64Swaps(a: Uint64, b: Uint64, c: Uint64)
    ensures Add64(a, Add64(b, c)) == Add64(b, Add64(a, c)) == Add64(Add64(a, b), c)
  {
  }

  // ---------- sums over maps ----------

  ghost function Without<K, V>(m: map<K, V>, k: K): map<K, V> {
    map j | j in m && j != k :: m[j]
  }

  /** The sum of all values of a map, modulo 2^64. */
  ghost function Sum64<K>(m: map<K, Uint64>): Uint64
    decreases |m|
  {
    if m == map[] then 0 else
      var k :| k in m;
      WithoutIsSmaller(m, k);
      Add64(m[k], Sum64(Without(m, k)))
  }

  lemma WithoutIsSmaller<K, V>(m: map<K, V>, k: K)
    requires k in m
    ensures |Without(m, k)| < |m|
  {
    assert Without(m, k).Keys == m.Keys - {k};
    assert |Without(m, k)| == |Without(m, k).Keys| && |m| == |m.Keys|;
  }

  /** The sum does not depend on the order in which the entries are taken out. */
  lemma {:induction false} SumTakesOut<K>(m: map<K, Uint64>, k: K)
    requires k in m
    ensures Sum64(m) == Add64(m[k], Sum64(Without(m, k)))
    decreases |m|
  {
    var j :| j in m && Sum64(m) == Add64(m[j], Sum64(Without(m, j)));
    if j != k {
      WithoutIsSmaller(m, j);
      WithoutIsSmaller(m, k);
      SumTakesOut(Without(m, j), k);
      SumTakesOut(Without(m, k), j);
      assert Without(Without(m, j), k) == Without(Without(m, k), j);
      Add64Swaps(m[j], m[k], Sum64(Without(Without(m, j), k)));
    }
  }

  lemma SumAfterUpdate<K>(m: map<K, Uint64>, k: K, v: Uint64)
    ensures Sum64(m[k := v]) == Add64(v, Sum64(Without(m, k)))
    ensures k !in m ==> Sum64(Without(m, k)) == Sum64(m)
  {
    var n := m[k := v];
    SumTakesOut(n, k);
    assert Without(n, k) == Without(m, k);
    if k !in m {
      assert Without(m, k) == m;
    }
  }

  /** Adding to one entry adds the same amount to the sum. */
  lemma SumAfterAdd<K>(m: map<K, Uint64>, k: K, d: Uint64)
    ensures Sum64(m[k := Add64(if k in m then m[k] else 0, d)]) == Add64(Sum64(m), d)
  {
    SumAfterUpdate(m, k, Add64(if k in m then m[k] else 0, d));
    if k in m {
      SumTakesOut(m, k);
    }
  }

  /** Entries that hold zero do not count. */
  lemma {:induction false} SumIgnoresZeros<K>(m: map<K, Uint64>, n: map<K, Uint64>)
    requires m.Keys <= n.Keys
    requires forall k :: k in n ==> n[k] == if k in m then m[k] else 0
    ensures Sum64(n) == Sum64(m)
    decreases |n|
  {
    if n == map[] {
      assert m == map[];
    } else {
      var k := Pick(n.Keys);
      WithoutIsSmaller(n, k);
      SumTakesOut(n, k);
      if k in m {
        SumTakesOut(m, k);
      } else {
        assert Without(m, k) == m;
      }
      SumIgnoresZeros(Without(m, k), Without(n, k));
    }
  }

  // ---------- trimming ----------

  /** White space as Go's unicode.IsSpace and Rust's char::is_whitespace define it. */
  predicate IsSpace(c: char) {
    var n := c as int;
    9 <= n <= 13 || n == 0x20 || n == 0x85 || n == 0xA0 || n == 0x1680 || 0x2000 <= n <= 0x200A ||
    n == 0x2028 || n == 0x2029 || n == 0x202F || n == 0x205F || n == 0x3000
  }

  function TrimStart(s: string): string {
    if s != "" && IsSpace(s[0]) then TrimStart(s[1..]) else s
  }

  function TrimEnd(s: string): string {
    if s != "" && IsSpace(s[|s| - 1]) then TrimEnd(s[..|s| - 1]) else s
  }

  /** strings.TrimSpace in Go, str::trim in Rust. */
  function Trim(s: string): string {
    TrimEnd(TrimStart(s))
  }

  /** Neither end is white space. */
  predicate Trimmed(s: string) {
    s == "" || (!IsSpace(s[0]) && !IsSpace(s[|s| - 1]))
  }

  lemma {:induction false} TrimEndKeepsStart(s: string)
    ensures TrimEnd(s) <= s
    ensures TrimEnd(s) == "" || !IsSpace(TrimEnd(s)[|TrimEnd(s)| - 1])
  {
    if s != "" && IsSpace(s[|s| - 1]) {
      TrimEndKeepsStart(s[..|s| - 1]);
    }
  }

  lemma {:induction false} TrimStartStops(s: string)
    ensures TrimStart(s) == "" || !IsSpace(TrimStart(s)[0])
  {
    if s != "" && IsSpace(s[0]) {
      TrimStartStops(s[1..]);
    }
  }

  lemma TrimTrims(s: string)
    ensures Trimmed(Trim(s))
  {
    TrimStartStops(s);
    TrimEndKeepsStart(TrimStart(s));
  }

  lemma TrimOfTrimmed(s: string)
    requires Trimmed(s)
    ensures Trim(s) == s
  {
  }

  lemma TrimIdempotent(s: string)
    ensures Trim(Trim(s)) == Trim(s)
  {
    TrimTrims(s);
    TrimOfTrimmed(Trim(s));
  }

  // ---------- lower case ----------

  function LowerChar(c: char): char {
    if 'A' <= c <= 'Z' then ((c as int) + 32) as char else c
  }

  /** strings.ToLower on ASCII letters. */
  function Lower(s: string): string {
    if s == "" then "" else [LowerChar(s[0])] + Lower(s[1..])
  }

  // ---------- concatenation ----------

  lemma Cancel(a: string, x: string, y: string, b: string)
    ensures a + x + b == a + y + b <==> x == y
  {
    if a + x + b == a + y + b {
      assert |x| == |y|;
      assert x == (a + x + b)[|a|..|a| + |x|] == (a + y + b)[|a|..|a| + |y|] == y;
    }
  }

  // ---------- decimal numbers ----------

  function Digit(d: nat): char
    requires d < 10
  {
    ('0' as int + d) as char
  }

  /** The decimal digits of a number. */
  function Decimal(n: nat): string {
    if n < 10 then [Digit(n)] else Decimal(n / 10) + [Digit(n % 10)]
  }

  // ---------- ordering ----------

  /** Code-point order, which is the order of the UTF-8 encodings that both languages compare. */
  predicate Before(a: string, b: string) {
    if b == "" then false
    else if a == "" then true
    else a[0] < b[0] || (a[0] == b[0] && Before(a[1..], b[1..]))
  }

  lemma {:induction false} BeforeTotal(a: string, b: string)
    ensures a == b || Before(a, b) || Before(b, a)
  {
    if a != "" && b != "" && a[0] == b[0] {
      BeforeTotal(a[1..], b[1..]);
      assert a == [a[0]] + a[1..] && b == [b[0]] + b[1..];
    }
  }

  lemma {:induction false} BeforeStrict(a: string, b: string)
    requires Before(a, b)
    ensures !Before(b, a) && a != b
  {
    if a != "" && a[0] == b[0] {
      BeforeStrict(a[1..], b[1..]);
    }
  }

  lemma {:induction false} BeforeTransitive(a: string, b: string, c: string)
    requires Before(a, b) && Before(b, c)
    ensures Before(a, c)
  {
    if a != "" && a[0] == b[0] == c[0] {
      BeforeTransitive(a[1..], b[1..], c[1..]);
    }
  }

  ghost predicate Ascending(s: seq<string>) {
    forall i, j :: 0 <= i < j < |s| ==> Before(s[i], s[j])
  }

  function Elements<T>(s: seq<T>): set<T> {
    set x | x in s
  }

  ghost predicate IsLeast(strings: set<string>, t: string) {
    t in strings && forall u :: u in strings ==> u == t || Before(t, u)
  }

  lemma {:induction false} LeastExists(strings: set<string>)
    requires strings != {}
    ensures exists t :: IsLeast(strings, t)
  {
    var x := Pick(strings);
    var rest := strings - {x};
    if rest == {} {
      assert strings == {x};
      assert IsLeast(strings, x);
    } else {
      LeastExists(rest);
      var t :| IsLeast(rest, t);
      BeforeTotal(x, t);
      forall u | u in strings && Before(x, t) && u != x ensures Before(x, u) {
        if u != t {
          BeforeTransitive(x, t, u);
        }
      }
      assert IsLeast(strings, x) || IsLeast(strings, t);
    }
  }

  lemma ElementsCons(t: string, s: seq<string>)
    ensures Elements([t] + s) == {t} + Elements(s)
  {
  }

  /** The elements of a set of strings in ascending order. */
  ghost function SortedStrings(strings: set<string>): (s: seq<string>)
    ensures Elements(s) == strings
  {
    if strings == {} then [] else
      LeastExists(strings);
      var t :| IsLeast(strings, t);
      ElementsCons(t, SortedStrings(strings - {t}));
      [t] + SortedStrings(strings - {t})
  }

  lemma {:induction false} SortedAscend(strings: set<string>)
    ensures Ascending(SortedStrings(strings))
  {
    if strings != {} {
      LeastExists(strings);
      var s := SortedStrings(strings);
      var t := s[0];
      var rest := strings - {t};
      assert IsLeast(strings, t) && s == [t] + SortedStrings(rest);
      SortedAscend(rest);
      forall i, j | 0 <= i < j < |s| ensures Before(s[i], s[j]) {
        if i == 0 {
          assert s[j] in Elements(SortedStrings(rest));
        }
      }
    }
  }

  lemma {:induction false} LeastIsUnique(strings: set<string>, t: string)
    requires IsLeast(strings, t)
    ensures SortedStrings(strings) == [t] + SortedStrings(strings - {t})
  {
    LeastExists(strings);
    var u := SortedStrings(strings)[0];
    assert IsLeast(strings, u);
    if u != t {
      BeforeStrict(t, u);
    }
  }

  /** The least of a non-empty set, visited in an arbitrary order. */
  method LeastOf(strings: set<string>) returns (least: string)
    requires strings != {}
    ensures IsLeast(strings, least)
  {
    least := AnyOf(strings);
    var rest := strings - {least};
    while rest != {}
      invariant rest <= strings && least in strings
      invariant forall u :: u in strings - rest ==> u == least || Before(least, u)
    {
      var t := AnyOf(rest);
      rest := rest - {t};
      BeforeTotal(t, least);
      if Before(t, least) {
        forall u | u in strings - rest && u != t ensures Before(t, u) {
          if u != least {
            BeforeTransitive(t, least, u);
          }
        }
        least := t;
      }
    }
  }

  lemma NoStrings()
    ensures SortedStrings({}) == []
  {
  }

  method SortStrings(strings: set<string>) returns (sorted: seq<string>)
    ensures sorted == SortedStrings(strings)
  {
    hide SortedStrings, IsLeast;
    NoStrings();
    sorted := [];
    var rest := strings;
    while rest != {}
      invariant SortedStrings(strings) == sorted + SortedStrings(rest)
      decreases rest
    {
      var t := LeastOf(rest);
      LeastIsUnique(rest, t);
      sorted := sorted + [t];
      rest := rest - {t};
    }
  }
}
