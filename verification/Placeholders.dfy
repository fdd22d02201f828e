/** Filling the placeholders of a link template. The manager (render_template_link in
    manager/src/services/registry_deploy.rs) chains six replacements; the registry (renderTemplateLink in
    registry/cmd/registry/main.go) replaces all six at once. */
module Placeholders {
  import opened Common

  datatype Kind = Token | Name | Id

  datatype Values = Values(token: string, name: string, id: string)

  function ValueOf(v: Values, k: Kind): string {
    match k
    case Token => v.token
    case Name => v.name
    case Id => v.id
  }

  function Word(k: Kind): string {
    match k
    case Token => "token"
    case Name => "name"
    case Id => "id"
  }

  /** The text of a placeholder, with one or two pairs of braces. */
  function Pattern(k: Kind, double: bool): string {
    if double then "{{" + Word(k) + "}}" else "{" + Word(k) + "}"
  }

  // ---------- the two programs ----------

  /** str::replace: all matches from left to right, without overlaps. */
  function Replace(s: string, pattern: string, value: string): string
    requires pattern != ""
  {
    if s == "" then ""
    else if pattern <= s then value + Replace(s[|pattern|..], pattern, value)
    else [s[0]] + Replace(s[1..], pattern, value)
  }

  /** The manager's six passes. */
  function RenderChained(template: string, v: Values): string {
    var s1 := Replace(template, Pattern(Token, true), v.token);
    var s2 := Replace(s1, Pattern(Name, true), v.name);
    var s3 := Replace(s2, Pattern(Id, true), v.id);
    var s4 := Replace(s3, Pattern(Token, false), v.token);
    var s5 := Replace(s4, Pattern(Name, false), v.name);
    Replace(s5, Pattern(Id, false), v.id)
  }

  datatype Match = NoMatch | Matched(kind: Kind, double: bool)

  /** strings.NewReplacer tries its patterns at each position in the order of the arguments. */
  function MatchAt(s: string): Match {
    if Pattern(Token, true) <= s then Matched(Token, true)
    else if Pattern(Name, true) <= s then Matched(Name, true)
    else if Pattern(Id, true) <= s then Matched(Id, true)
    else if Pattern(Token, false) <= s then Matched(Token, false)
    else if Pattern(Name, false) <= s then Matched(Name, false)
    else if Pattern(Id, false) <= s then Matched(Id, false)
    else NoMatch
  }

  /** The registry's single pass; replaced text is not looked at again. */
  function RenderAtOnce(s: string, v: Values): string {
    if s == "" then "" else
      var m := MatchAt(s);
      if m.Matched? then ValueOf(v, m.kind) + RenderAtOnce(s[|Pattern(m.kind, m.double)|..], v)
      else [s[0]] + RenderAtOnce(s[1..], v)
  }

  // ---------- templates as tokens ----------

  datatype Piece = Text(text: string) | Hole(kind: Kind, double: bool)

  function Written(p: Piece): string {
    match p
    case Text(text) => text
    case Hole(kind, double) => Pattern(kind, double)
  }

  function Template(pieces: seq<Piece>): string {
    if pieces == [] then "" else Written(pieces[0]) + Template(pieces[1..])
  }

  /** The intended rendering, piece by piece. */
  function Rendered(pieces: seq<Piece>, v: Values): string {
    if pieces == [] then "" else
      (match pieces[0]
       case Text(text) => text
       case Hole(kind, _) => ValueOf(v, kind)) + Rendered(pieces[1..], v)
  }

  /** Two texts differ at a position that both have. */
  predicate Clash(a: string, b: string) {
    exists j :: 0 <= j < |a| && j < |b| && a[j] != b[j]
  }

  /** No placeholder begins in this text, not even one that later text would complete. */
  predicate Inert(s: string) {
    s == "" || ((s[0] == '{' ==> forall k: Kind, double: bool :: Clash(s, Pattern(k, double))) && Inert(s[1..]))
  }

  predicate WellFormed(pieces: seq<Piece>) {
    forall p :: p in pieces && p.Text? ==> Inert(p.text)
  }

  // ---------- one pass over well-formed pieces ----------

  lemma PatternShape(k: Kind, double: bool)
    ensures var p := Pattern(k, double);
            && |p| >= 4 && p[0] == '{'
            && (if double then p[1] == '{' && p[2..] == Word(k) + "}}" &&
                p[1..] == "{" + Word(k) + "}}" else p[1..] == Word(k) + "}")
  {
  }

  lemma ClashIsNoMatch(s: string, rest: string, pattern: string)
    requires Clash(s, pattern)
    ensures !(pattern <= s + rest)
  {
    var j :| 0 <= j < |s| && j < |pattern| && s[j] != pattern[j];
    assert (s + rest)[j] == s[j];
  }

  /** This one placeholder begins nowhere in the text. */
  ghost predicate Avoids(s: string, pattern: string) {
    s == "" || ((s[0] == '{' ==> Clash(s, pattern)) && Avoids(s[1..], pattern))
  }

  lemma ReplaceCopies(s: string, pattern: string, value: string)
    requires s != "" && pattern != "" && !(pattern <= s)
    ensures Replace(s, pattern, value) == [s[0]] + Replace(s[1..], pattern, value)
  {
  }

  lemma FirstLetter(text: string, rest: string, tail: string)
    requires text != ""
    ensures text + rest != "" && (text + rest)[1..] == text[1..] + rest && (text + rest)[0] == text[0]
    ensures [text[0]] + (text[1..] + tail) == text + tail
  {
    assert text == [text[0]] + text[1..];
  }

  lemma NotFoundHere(text: string, rest: string, pattern: string)
    requires text != "" && pattern != "" && pattern[0] == '{' && Avoids(text, pattern)
    ensures !(pattern <= text + rest)
  {
    if text[0] == '{' {
      ClashIsNoMatch(text, rest, pattern);
    } else {
      assert (text + rest)[0] != pattern[0];
    }
  }

  /** A pass copies text in which its placeholder does not begin. */
  lemma {:induction false} PassSkips(text: string, rest: string, pattern: string, value: string)
    requires pattern != "" && pattern[0] == '{' && Avoids(text, pattern)
    ensures Replace(text + rest, pattern, value) == text + Replace(rest, pattern, value)
  {
    hide Clash;
    if text == "" {
      assert text + rest == rest;
    } else {
      NotFoundHere(text, rest, pattern);
      FirstLetter(text, rest, Replace(rest, pattern, value));
      ReplaceCopies(text + rest, pattern, value);
      PassSkips(text[1..], rest, pattern, value);
    }
  }

  lemma {:induction false} InertAvoids(text: string, k: Kind, double: bool)
    requires Inert(text)
    ensures Avoids(text, Pattern(k, double))
  {
    if text != "" {
      InertAvoids(text[1..], k, double);
    }
  }

  lemma {:induction false} NoBraceAvoids(text: string, pattern: string)
    requires forall i :: 0 <= i < |text| ==> text[i] != '{'
    ensures Avoids(text, pattern)
  {
    if text != "" {
      NoBraceAvoids(text[1..], pattern);
    }
  }

  lemma WordsDiffer(a: Kind, b: Kind)
    ensures Word(a) != "" && Word(a)[0] != '{' && (a != b ==> Word(a)[0] != Word(b)[0])
  {
  }

  lemma NoBraceInside(k: Kind, double: bool)
    ensures var p := Pattern(k, double); var inside := p[if double then 2 else 1..];
            forall i :: 0 <= i < |inside| ==> inside[i] != '{'
  {
    var closing := if double then "}}" else "}";
    assert Pattern(k, double)[if double then 2 else 1..] == Word(k) + closing;
    assert forall i :: 0 <= i < |Word(k)| ==> Word(k)[i] != '{';
  }

  /** A pass for one placeholder finds nothing in another, except the single form inside the double one. */
  lemma OtherHoleAvoids(h: Piece, k: Kind, double: bool)
    requires h.Hole? && h != Hole(k, double) && !(h.kind == k && h.double && !double)
    ensures Avoids(Written(h), Pattern(k, double))
  {
    var text, p := Written(h), Pattern(k, double);
    PatternShape(h.kind, h.double);
    PatternShape(k, double);
    WordsDiffer(h.kind, k);
    WordsDiffer(k, h.kind);
    NoBraceInside(h.kind, h.double);
    NoBraceAvoids(text[if h.double then 2 else 1..], p);
    if h.double {
      assert if double then text[2] != p[2] else text[1] != p[1];
      assert Clash(text, p);
      assert text[1..][1] != p[1];
      assert Clash(text[1..], p);
      assert text[1..][1..] == text[2..];
    } else {
      assert text[1] != p[1];
      assert Clash(text, p);
    }
  }

  lemma NotHere(text: string, rest: string, k: Kind, double: bool)
    requires text != "" && Inert(text)
    ensures !(Pattern(k, double) <= text + rest)
  {
    PatternShape(k, double);
    if text[0] == '{' {
      ClashIsNoMatch(text, rest, Pattern(k, double));
    } else {
      assert (text + rest)[0] == text[0];
    }
  }

  lemma InertTail(text: string)
    requires text != "" && Inert(text)
    ensures Inert(text[1..])
  {
  }

  lemma NoneHere(text: string, rest: string)
    requires text != "" && Inert(text)
    ensures MatchAt(text + rest) == NoMatch
  {
    NotHere(text, rest, Token, true);
    NotHere(text, rest, Name, true);
    NotHere(text, rest, Id, true);
    NotHere(text, rest, Token, false);
    NotHere(text, rest, Name, false);
    NotHere(text, rest, Id, false);
  }

  lemma NoMatchCopies(s: string, v: Values)
    requires s != "" && MatchAt(s) == NoMatch
    ensures RenderAtOnce(s, v) == [s[0]] + RenderAtOnce(s[1..], v)
  {
  }

  lemma {:induction false} AtOnceSkips(text: string, rest: string, v: Values)
    requires Inert(text)
    ensures RenderAtOnce(text + rest, v) == text + RenderAtOnce(rest, v)
  {
    hide MatchAt, Inert, Pattern, ValueOf;
    if text == "" {
      assert text + rest == rest;
    } else {
      InertTail(text);
      NoneHere(text, rest);
      FirstLetter(text, rest, RenderAtOnce(rest, v));
      NoMatchCopies(text + rest, v);
      AtOnceSkips(text[1..], rest, v);
    }
  }

  lemma MatchAtHole(k: Kind, double: bool, rest: string)
    ensures MatchAt(Pattern(k, double) + rest) == Matched(k, double)
  {
    var s := Pattern(k, double) + rest;
    forall j: Kind, d: bool ensures Pattern(j, d) <= s <==> j == k && d == double {
      HoleStarts(k, double, rest, j, d);
    }
  }

  lemma HoleStarts(k: Kind, double: bool, rest: string, j: Kind, d: bool)
    ensures Pattern(j, d) <= Pattern(k, double) + rest <==> j == k && d == double
  {
    PatternShape(k, double);
    PatternShape(j, d);
    WordsDiffer(j, k);
    var p, q, s := Pattern(k, double), Pattern(j, d), Pattern(k, double) + rest;
    if d != double {
      assert s[1] == p[1] && (if double then q[1] == Word(j)[0] && p[1] == '{' else q[1] == '{' && p[1] == Word(k)[0]);
      WordsDiffer(k, j);
    } else if j != k {
      var at := if double then 2 else 1;
      assert s[at] == p[at] == Word(k)[0] && q[at] == Word(j)[0];
    }
  }

  /** One simultaneous pass gives the intended rendering, whatever the values. */
  lemma {:induction false} AtOnceRenders(pieces: seq<Piece>, v: Values)
    requires WellFormed(pieces)
    ensures RenderAtOnce(Template(pieces), v) == Rendered(pieces, v)
  {
    if pieces != [] {
      var h, rest := pieces[0], pieces[1..];
      assert h in pieces && forall p :: p in rest ==> p in pieces;
      AtOnceRenders(rest, v);
      match h
      case Text(text) => AtOnceSkips(text, Template(rest), v);
      case Hole(kind, double) =>
        PatternShape(kind, double);
        MatchAtHole(kind, double, Template(rest));
        assert Template(pieces)[|Pattern(kind, double)|..] == Template(rest);
    }
  }

  // ---------- values that contain placeholders ----------

  predicate Contains(s: string, pattern: string) {
    pattern <= s || (s != "" && Contains(s[1..], pattern))
  }

  /** The six passes in their order. */
  function KindAt(n: nat): Kind {
    if n % 3 == 0 then Token else if n % 3 == 1 then Name else Id
  }

  function PatternAt(n: nat): string {
    Pattern(KindAt(n), n < 3)
  }

  function IndexOf(k: Kind, double: bool): nat {
    (match k case Token => 0 case Name => 1 case Id => 2) + if double then 0 else 3
  }

  function PassesFrom(s: string, n: nat, v: Values): string
    decreases 6 - n
  {
    if n >= 6 then s else PassesFrom(Replace(s, PatternAt(n), ValueOf(v, KindAt(n))), n + 1, v)
  }

  lemma ChainIsPasses(s: string, v: Values)
    ensures RenderChained(s, v) == PassesFrom(s, 0, v)
  {
    var s1 := Replace(s, PatternAt(0), ValueOf(v, KindAt(0)));
    var s2 := Replace(s1, PatternAt(1), ValueOf(v, KindAt(1)));
    var s3 := Replace(s2, PatternAt(2), ValueOf(v, KindAt(2)));
    var s4 := Replace(s3, PatternAt(3), ValueOf(v, KindAt(3)));
    var s5 := Replace(s4, PatternAt(4), ValueOf(v, KindAt(4)));
    var s6 := Replace(s5, PatternAt(5), ValueOf(v, KindAt(5)));
    assert RenderChained(s, v) == s6;
    assert PassesFrom(s4, 4, v) == PassesFrom(s5, 5, v) == PassesFrom(s6, 6, v) == s6;
    assert PassesFrom(s2, 2, v) == PassesFrom(s3, 3, v) == PassesFrom(s4, 4, v);
    assert PassesFrom(s, 0, v) == PassesFrom(s1, 1, v) == PassesFrom(s2, 2, v);
  }

  lemma IndexedPattern(k: Kind, double: bool)
    ensures IndexOf(k, double) < 6 && KindAt(IndexOf(k, double)) == k &&
            PatternAt(IndexOf(k, double)) == Pattern(k, double)
  {
  }

  /** A pass leaves the text of another placeholder alone, except the single form inside the double one. */
  lemma PassLeaves(k: Kind, double: bool, n: nat, value: string)
    requires n < 6 && n != IndexOf(k, double) && !(double && n == IndexOf(k, false))
    ensures Replace(Pattern(k, double), PatternAt(n), value) == Pattern(k, double)
  {
    var text := Pattern(k, double);
    OtherHoleAvoids(Hole(k, double), KindAt(n), n < 3);
    PatternShape(KindAt(n), n < 3);
    PassSkips(text, "", PatternAt(n), value);
    assert text + "" == text;
  }

  lemma PassHits(pattern: string, value: string)
    requires pattern != ""
    ensures Replace(pattern, pattern, value) == value
  {
    assert pattern[|pattern|..] == "" && value + "" == value;
  }

  /** The placeholder waits for its own pass. */
  lemma {:induction false} OwnPass(k: Kind, double: bool, n: nat, v: Values)
    requires n <= IndexOf(k, double)
    ensures PassesFrom(Pattern(k, double), n, v) == PassesFrom(ValueOf(v, k), IndexOf(k, double) + 1, v)
    decreases IndexOf(k, double) - n
  {
    IndexedPattern(k, double);
    if n < IndexOf(k, double) {
      PassLeaves(k, double, n, ValueOf(v, KindAt(n)));
      OwnPass(k, double, n + 1, v);
    } else {
      PassHits(Pattern(k, double), ValueOf(v, k));
    }
  }

  lemma {:induction false} ReplaceNothing(s: string, pattern: string, value: string)
    requires pattern != "" && !Contains(s, pattern)
    ensures Replace(s, pattern, value) == s
  {
    if s != "" {
      ReplaceCopies(s, pattern, value);
      ReplaceNothing(s[1..], pattern, value);
    }
  }

  /** How often a mark that no placeholder contains occurs. */
  function Marks(s: string): nat {
    if s == "" then 0 else (if s[0] == '*' then 1 else 0) + Marks(s[1..])
  }

  lemma {:induction false} MarksConcat(a: string, b: string)
    ensures Marks(a + b) == Marks(a) + Marks(b)
  {
    if a == "" {
      assert a + b == b;
    } else {
      MarksConcat(a[1..], b);
      assert (a + b)[1..] == a[1..] + b;
    }
  }

  lemma {:induction false} Unmarked(s: string)
    requires '*' !in s
    ensures Marks(s) == 0
  {
    if s != "" {
      Unmarked(s[1..]);
    }
  }

  lemma PatternUnmarked(n: nat)
    ensures PatternAt(n) != "" && Marks(PatternAt(n)) == 0
  {
    var k := KindAt(n);
    assert '*' !in Word(k);
    assert '*' !in Pattern(k, n < 3);
    Unmarked(PatternAt(n));
  }

  /** A pass removes no marks, and adds some where it inserts a marked value. */
  lemma {:induction false} ReplaceMarks(s: string, pattern: string, value: string)
    requires pattern != "" && Marks(pattern) == 0
    ensures Marks(Replace(s, pattern, value)) >= Marks(s)
    ensures Contains(s, pattern) && Marks(value) > 0 ==> Marks(Replace(s, pattern, value)) > Marks(s)
  {
    if s != "" {
      if pattern <= s {
        var rest := s[|pattern|..];
        assert s == pattern + rest;
        MarksConcat(pattern, rest);
        ReplaceMarks(rest, pattern, value);
        MarksConcat(value, Replace(rest, pattern, value));
      } else {
        ReplaceMarks(s[1..], pattern, value);
        assert s == [s[0]] + s[1..];
        MarksConcat([s[0]], s[1..]);
        MarksConcat([s[0]], Replace(s[1..], pattern, value));
        ReplaceCopies(s, pattern, value);
      }
    }
  }

  /** A pass that inserts a longer text makes the whole longer. */
  lemma {:induction false} ReplaceLengthens(s: string, pattern: string, value: string)
    requires pattern != "" && |value| > |pattern|
    ensures |Replace(s, pattern, value)| >= |s| && (Contains(s, pattern) ==> |Replace(s, pattern, value)| > |s|)
  {
    if s != "" {
      ReplaceLengthens(if pattern <= s then s[|pattern|..] else s[1..], pattern, value);
    }
  }

  lemma {:induction false} MarksStay(s: string, n: nat, v: Values)
    ensures Marks(PassesFrom(s, n, v)) >= Marks(s)
    decreases 6 - n
  {
    if n < 6 {
      PatternUnmarked(n);
      ReplaceMarks(s, PatternAt(n), ValueOf(v, KindAt(n)));
      MarksStay(Replace(s, PatternAt(n), ValueOf(v, KindAt(n))), n + 1, v);
    }
  }

  /** Passes that insert marked values leave a text as it is or add marks to it. */
  lemma {:induction false} StaysOrGrows(s: string, n: nat, v: Values)
    requires forall m :: n <= m < 6 ==> Marks(ValueOf(v, KindAt(m))) > 0
    ensures PassesFrom(s, n, v) == s || Marks(PassesFrom(s, n, v)) > Marks(s)
    decreases 6 - n
  {
    if n < 6 {
      var value := ValueOf(v, KindAt(n));
      PatternUnmarked(n);
      if Contains(s, PatternAt(n)) {
        ReplaceMarks(s, PatternAt(n), value);
        MarksStay(Replace(s, PatternAt(n), value), n + 1, v);
      } else {
        ReplaceNothing(s, PatternAt(n), value);
        StaysOrGrows(s, n + 1, v);
      }
    }
  }

  /** No pass from the n-th on finds its placeholder in the text. */
  predicate CleanFrom(s: string, n: nat) {
    forall m :: n <= m < 6 ==> !Contains(s, PatternAt(m))
  }

  lemma {:induction false} CleanStays(s: string, n: nat, v: Values)
    requires CleanFrom(s, n)
    ensures PassesFrom(s, n, v) == s
    decreases 6 - n
  {
    if n < 6 {
      PatternUnmarked(n);
      ReplaceNothing(s, PatternAt(n), ValueOf(v, KindAt(n)));
      CleanStays(s, n + 1, v);
    }
  }

  /** A value survives the passes after its own if it contains none of their placeholders, or is the single
      form of its own placeholder, which is then replaced by itself. */
  predicate Survives(k: Kind, double: bool, value: string) {
    CleanFrom(value, IndexOf(k, double) + 1) || (double && value == Pattern(k, false))
  }

  /** The single form is left alone by all passes but its own, which puts it back. */
  lemma {:induction false} SelfStays(k: Kind, n: nat, v: Values)
    requires ValueOf(v, k) == Pattern(k, false)
    ensures PassesFrom(Pattern(k, false), n, v) == Pattern(k, false)
    decreases 6 - n
  {
    IndexedPattern(k, false);
    if n < 6 {
      if n == IndexOf(k, false) {
        PassHits(Pattern(k, false), Pattern(k, false));
      } else {
        PassLeaves(k, false, n, ValueOf(v, KindAt(n)));
      }
      SelfStays(k, n + 1, v);
    }
  }

  /** Other values that bear a mark. */
  function MarkedValues(k: Kind, value: string): Values {
    match k
    case Token => Values(value, "*", "*")
    case Name => Values("*", value, "*")
    case Id => Values("*", "*", value)
  }

  lemma MarkedElsewhere(k: Kind, value: string, n: nat)
    requires n < 6 && n != IndexOf(k, true) && n != IndexOf(k, false)
    ensures Marks(ValueOf(MarkedValues(k, value), KindAt(n))) > 0
  {
    assert Marks("*"[1..]) == 0 && Marks("*") == 1;
  }

  lemma {:induction false} ContainsIsLonger(s: string, pattern: string)
    requires Contains(s, pattern)
    ensures |s| > |pattern| || s == pattern
  {
    if !(pattern <= s) {
      ContainsIsLonger(s[1..], pattern);
    }
  }

  /** Among marked values a text that contains a later placeholder is changed for good. Only a placeholder of the
      value's own kind might be put back. */
  lemma {:induction false} ChangesFrom(k: Kind, value: string, s: string, n: nat, m: nat)
    requires IndexOf(k, true) < n <= m < 6 && Contains(s, PatternAt(m)) && PatternAt(m) != ""
    requires m == IndexOf(k, false) ==> Replace(s, PatternAt(m), value) != s
    ensures PassesFrom(s, n, MarkedValues(k, value)) != s
    decreases 6 - n
  {
    hide Marks, Contains, Replace, Pattern;
    var v := MarkedValues(k, value);
    IndexedPattern(k, false);
    PatternUnmarked(n);
    var next := Replace(s, PatternAt(n), ValueOf(v, KindAt(n)));
    ReplaceMarks(s, PatternAt(n), ValueOf(v, KindAt(n)));
    if !Contains(s, PatternAt(n)) {
      ReplaceNothing(s, PatternAt(n), ValueOf(v, KindAt(n)));
      ChangesFrom(k, value, s, n + 1, m);
    } else if n != IndexOf(k, false) {
      MarkedElsewhere(k, value, n);
      MarksStay(next, n + 1, v);
    } else if next != s {
      forall m | n + 1 <= m < 6 ensures Marks(ValueOf(v, KindAt(m))) > 0 {
        MarkedElsewhere(k, value, m);
      }
      StaysOrGrows(next, n + 1, v);
    } else {
      ChangesFrom(k, value, s, n + 1, m);
    }
  }

  /** In particular a value that does not survive. */
  lemma ValueChanges(k: Kind, double: bool, value: string)
    requires !Survives(k, double, value)
    ensures PassesFrom(value, IndexOf(k, double) + 1, MarkedValues(k, value)) != value
  {
    hide Replace, Contains, Pattern, MarkedValues;
    var m :| IndexOf(k, double) < m < 6 && Contains(value, PatternAt(m));
    PatternUnmarked(m);
    IndexedPattern(k, false);
    if m == IndexOf(k, false) {
      ContainsIsLonger(value, PatternAt(m));
      ReplaceLengthens(value, PatternAt(m), value);
    }
    ChangesFrom(k, value, value, IndexOf(k, double) + 1, m);
  }

  /** The chain shows a value as it is, whatever the other values are, exactly if the value survives. The
      simultaneous replacement always does. */
  lemma OneHoleExactly(k: Kind, double: bool, value: string)
    ensures (forall v: Values :: ValueOf(v, k) == value ==> RenderChained(Pattern(k, double), v) == value) <==>
              Survives(k, double, value)
    ensures forall v: Values :: ValueOf(v, k) == value ==> RenderAtOnce(Pattern(k, double), v) == value
  {
    forall v: Values | ValueOf(v, k) == value
      ensures RenderChained(Pattern(k, double), v) == PassesFrom(value, IndexOf(k, double) + 1, v)
      ensures Survives(k, double, value) ==> PassesFrom(value, IndexOf(k, double) + 1, v) == value
      ensures RenderAtOnce(Pattern(k, double), v) == value
    {
      ChainIsPasses(Pattern(k, double), v);
      OwnPass(k, double, 0, v);
      if CleanFrom(value, IndexOf(k, double) + 1) {
        CleanStays(value, IndexOf(k, double) + 1, v);
      } else if Survives(k, double, value) {
        SelfStays(k, IndexOf(k, double) + 1, v);
      }
      OneHoleAtOnce(k, double, v);
    }
    if !Survives(k, double, value) {
      ValueChanges(k, double, value);
      assert ValueOf(MarkedValues(k, value), k) == value;
      assert RenderChained(Pattern(k, double), MarkedValues(k, value)) != value;
    }
  }

  lemma OneHoleAtOnce(k: Kind, double: bool, v: Values)
    ensures RenderAtOnce(Pattern(k, double), v) == ValueOf(v, k)
  {
    var hole := [Hole(k, double)];
    assert Template(hole[1..]) == "" && Rendered(hole[1..], v) == "";
    assert Pattern(k, double) + "" == Pattern(k, double) && ValueOf(v, k) + "" == ValueOf(v, k);
    AtOnceRenders(hole, v);
  }

  // ---------- values in templates of several pieces ----------

  /** None of the placeholders of the passes from the n-th on begins in the text. */
  ghost predicate AvoidsFrom(s: string, n: nat) {
    forall m :: n <= m < 6 ==> Avoids(s, PatternAt(m))
  }

  /** No later placeholder begins in the value, or it is the single form of its own placeholder. */
  ghost predicate Safe(k: Kind, double: bool, value: string) {
    AvoidsFrom(value, IndexOf(k, double) + 1) || (double && value == Pattern(k, false))
  }

  /** What the passes from the n-th on need of a piece. */
  ghost predicate ReadyPiece(p: Piece, n: nat, v: Values) {
    match p
    case Text(text) => AvoidsFrom(text, n)
    case Hole(kind, double) => IndexOf(kind, double) >= n && Safe(kind, double, ValueOf(v, kind))
  }

  ghost predicate Ready(pieces: seq<Piece>, n: nat, v: Values) {
    forall p :: p in pieces ==> ReadyPiece(p, n, v)
  }

  /** A piece after the n-th pass. A value that is its own single form waits for the pass of that form. */
  function FilledPiece(p: Piece, n: nat, v: Values): Piece {
    if p != Hole(KindAt(n), n < 3) then p
    else if n < 3 && ValueOf(v, KindAt(n)) == Pattern(KindAt(n), false) then Hole(KindAt(n), false)
    else Text(ValueOf(v, KindAt(n)))
  }

  function Filled(pieces: seq<Piece>, n: nat, v: Values): seq<Piece> {
    if pieces == [] then [] else [FilledPiece(pieces[0], n, v)] + Filled(pieces[1..], n, v)
  }

  function RenderedPiece(p: Piece, v: Values): string {
    match p
    case Text(text) => text
    case Hole(kind, _) => ValueOf(v, kind)
  }

  lemma HoleAvoidsLater(k: Kind, double: bool, n: nat)
    requires IndexOf(k, double) < n < 6 && !double
    ensures Avoids(Pattern(k, double), PatternAt(n))
  {
    IndexedPattern(k, double);
    OtherHoleAvoids(Hole(k, double), KindAt(n), n < 3);
  }

  lemma PieceFilled(p: Piece, n: nat, v: Values)
    requires n < 6 && ReadyPiece(p, n, v)
    ensures ReadyPiece(FilledPiece(p, n, v), n + 1, v) && RenderedPiece(FilledPiece(p, n, v), v) == RenderedPiece(p, v)
    ensures Written(FilledPiece(p, n, v)) == if p == Hole(KindAt(n), n < 3) then ValueOf(v, KindAt(n)) else Written(p)
    ensures p != Hole(KindAt(n), n < 3) ==> Avoids(Written(p), PatternAt(n))
  {
    hide Avoids, Pattern;
    if p.Hole? {
      IndexedPattern(p.kind, p.double);
      IndexedPattern(p.kind, false);
      if p == Hole(KindAt(n), n < 3) {
        forall m | IndexOf(p.kind, false) < m < 6 ensures Avoids(Pattern(p.kind, false), PatternAt(m)) {
          HoleAvoidsLater(p.kind, false, m);
        }
      } else {
        OtherHoleAvoids(p, KindAt(n), n < 3);
      }
    }
  }

  /** One pass over pieces that are ready for it. */
  lemma {:induction false} PassFills(pieces: seq<Piece>, n: nat, v: Values)
    requires n < 6 && Ready(pieces, n, v) && PatternAt(n) != ""
    ensures Ready(Filled(pieces, n, v), n + 1, v) && Rendered(Filled(pieces, n, v), v) == Rendered(pieces, v)
    ensures Replace(Template(pieces), PatternAt(n), ValueOf(v, KindAt(n))) == Template(Filled(pieces, n, v))
  {
    hide ReadyPiece, Avoids, FilledPiece, ValueOf;
    if pieces != [] {
      var p, rest := pieces[0], pieces[1..];
      assert p in pieces && forall q :: q in rest ==> q in pieces;
      PieceFilled(p, n, v);
      PassFills(rest, n, v);
      var filled := Filled(pieces, n, v);
      assert filled[0] == FilledPiece(p, n, v) && filled[1..] == Filled(rest, n, v);
      FirstPiece(pieces, v);
      FirstPiece(filled, v);
      PatternShape(KindAt(n), n < 3);
      if p == Hole(KindAt(n), n < 3) {
        assert Written(p) == PatternAt(n);
        ReplaceFirst(PatternAt(n), Template(rest), ValueOf(v, KindAt(n)));
      } else {
        PassSkips(Written(p), Template(rest), PatternAt(n), ValueOf(v, KindAt(n)));
      }
    }
  }

  lemma FirstPiece(pieces: seq<Piece>, v: Values)
    requires pieces != []
    ensures Template(pieces) == Written(pieces[0]) + Template(pieces[1..])
    ensures Rendered(pieces, v) == RenderedPiece(pieces[0], v) + Rendered(pieces[1..], v)
  {
  }

  lemma ReplaceFirst(pattern: string, rest: string, value: string)
    requires pattern != ""
    ensures Replace(pattern + rest, pattern, value) == value + Replace(rest, pattern, value)
  {
    assert (pattern + rest)[|pattern|..] == rest;
  }

  lemma {:induction false} PassesRender(pieces: seq<Piece>, n: nat, v: Values)
    requires n <= 6 && Ready(pieces, n, v)
    ensures PassesFrom(Template(pieces), n, v) == Rendered(pieces, v)
    decreases 6 - n
  {
    hide ReadyPiece, Rendered, Template, Replace, Filled;
    if n == 6 {
      NoHolesLeft(pieces, v);
    } else {
      PatternUnmarked(n);
      PassFills(pieces, n, v);
      PassesRender(Filled(pieces, n, v), n + 1, v);
    }
  }

  lemma {:induction false} NoHolesLeft(pieces: seq<Piece>, v: Values)
    requires Ready(pieces, 6, v)
    ensures Template(pieces) == Rendered(pieces, v)
  {
    if pieces != [] {
      assert ReadyPiece(pieces[0], 6, v) && forall q :: q in pieces[1..] ==> q in pieces;
      if pieces[0].Hole? {
        IndexedPattern(pieces[0].kind, pieces[0].double);
      }
      NoHolesLeft(pieces[1..], v);
    }
  }

  ghost predicate SafeHoles(pieces: seq<Piece>, v: Values) {
    forall p :: p in pieces && p.Hole? ==> Safe(p.kind, p.double, ValueOf(v, p.kind))
  }

  /** Values that are safe in every template. */
  ghost predicate SafeValues(v: Values) {
    forall k: Kind, double: bool :: Safe(k, double, ValueOf(v, k))
  }

  lemma InertIsAvoided(s: string, n: nat)
    requires Inert(s)
    ensures AvoidsFrom(s, n)
  {
    hide Inert;
    forall m | n <= m < 6 ensures Avoids(s, PatternAt(m)) {
      InertAvoids(s, KindAt(m), m < 3);
    }
  }

  /** Six passes give the intended rendering, although `{token}` occurs inside `{{token}}`, as long as no literal text
      contains the beginning of a placeholder and every value is safe in its placeholders. */
  lemma ChainedRenders(pieces: seq<Piece>, v: Values)
    requires WellFormed(pieces) && SafeHoles(pieces, v)
    ensures RenderChained(Template(pieces), v) == Rendered(pieces, v)
  {
    hide Inert, Safe, AvoidsFrom, RenderChained;
    forall p | p in pieces ensures ReadyPiece(p, 0, v) {
      if p.Text? {
        InertIsAvoided(p.text, 0);
      }
    }
    PassesRender(pieces, 0, v);
    ChainIsPasses(Template(pieces), v);
  }

  /** A template and values that put the value into this form of its placeholder only, among inert values. */
  ghost predicate Uses(pieces: seq<Piece>, v: Values, k: Kind, double: bool, value: string) {
    && WellFormed(pieces) && Hole(k, !double) !in pieces && ValueOf(v, k) == value
    && forall j :: j != k ==> Inert(ValueOf(v, j))
  }

  lemma SafeRenders(pieces: seq<Piece>, v: Values, k: Kind, double: bool, value: string)
    requires Uses(pieces, v, k, double, value) && Safe(k, double, value)
    ensures RenderChained(Template(pieces), v) == Rendered(pieces, v)
  {
    hide Inert, AvoidsFrom, RenderChained;
    forall p | p in pieces && p.Hole? ensures Safe(p.kind, p.double, ValueOf(v, p.kind)) {
      if p.kind != k {
        InertIsAvoided(ValueOf(v, p.kind), IndexOf(p.kind, p.double) + 1);
      }
    }
    ChainedRenders(pieces, v);
  }

  // ---------- and values that some template gets wrong ----------

  lemma InertMarks(k: Kind, value: string)
    ensures forall j :: j != k ==> Inert(ValueOf(MarkedValues(k, value), j))
    ensures ValueOf(MarkedValues(k, value), k) == value
  {
    assert Inert("*") by { assert Inert("*"[1..]); }
  }

  lemma {:induction false} NoBraceInert(s: string)
    requires forall i :: 0 <= i < |s| ==> s[i] != '{'
    ensures Inert(s)
  {
    if s != "" {
      NoBraceInert(s[1..]);
    }
  }

  lemma {:induction false} NoBraceNoPattern(s: string, pattern: string)
    requires (forall i :: 0 <= i < |s| ==> s[i] != '{') && pattern != "" && pattern[0] == '{'
    ensures !Contains(s, pattern)
  {
    if s != "" {
      NoBraceNoPattern(s[1..], pattern);
    }
  }

  /** Where a placeholder begins in a text that does not contain it, the text ends in the middle of it. */
  lemma {:induction false} EndsWithin(s: string, pattern: string) returns (front: string, l: nat)
    requires !Avoids(s, pattern) && !Contains(s, pattern)
    ensures 0 < l < |pattern| && s == front + pattern[..l]
  {
    if s[0] == '{' && !Clash(s, pattern) {
      front, l := "", |s|;
      Comparable(s, pattern);
    } else {
      front, l := EndsWithin(s[1..], pattern);
      front := [s[0]] + front;
      assert s == [s[0]] + s[1..];
    }
  }

  lemma Comparable(s: string, pattern: string)
    requires !Clash(s, pattern)
    ensures if |s| < |pattern| then s == pattern[..|s|] else pattern <= s
  {
    var n := if |s| < |pattern| then |s| else |pattern|;
    assert forall j :: 0 <= j < n ==> s[j] == pattern[j];
    assert s[..n] == pattern[..n];
  }

  /** The passes before the own one leave the rest alone, and the own one puts the value before it. */
  lemma {:induction false} OwnPassWith(k: Kind, double: bool, rest: string, n: nat, v: Values)
    requires n <= IndexOf(k, double)
    requires forall j :: 0 <= j <= IndexOf(k, double) ==> Replace(rest, PatternAt(j), ValueOf(v, KindAt(j))) == rest
    ensures PassesFrom(Pattern(k, double) + rest, n, v) == PassesFrom(ValueOf(v, k) + rest, IndexOf(k, double) + 1, v)
    decreases IndexOf(k, double) - n
  {
    hide Replace, Pattern, ValueOf;
    IndexedPattern(k, double);
    PatternUnmarked(n);
    if n < IndexOf(k, double) {
      OtherHoleAvoids(Hole(k, double), KindAt(n), n < 3);
      PatternShape(KindAt(n), n < 3);
      PassSkips(Pattern(k, double), rest, PatternAt(n), ValueOf(v, KindAt(n)));
      OwnPassWith(k, double, rest, n + 1, v);
    } else {
      ReplaceFirst(Pattern(k, double), rest, ValueOf(v, k));
    }
  }

  ghost predicate BracelessFrom(p: string, n: nat) {
    forall i :: n <= i < |p| ==> p[i] != '{'
  }

  lemma BracesFirst(k: Kind, double: bool)
    ensures BracelessFrom(Pattern(k, double), if double then 2 else 1)
  {
    NoBraceInside(k, double);
    var p, skip := Pattern(k, double), if double then 2 else 1;
    forall i | skip <= i < |p| ensures p[i] != '{' {
      assert p[i] == p[skip..][i - skip];
    }
  }

  lemma ShortMatch(p: string, s: string, n: nat, at: nat)
    requires p <= s && BracelessFrom(p, n) && n <= at < |s| && s[at] == '{'
    ensures |p| <= at
  {
  }

  function LastBrace(double: bool): string {
    if double then "{" else ""
  }

  lemma PrefixContained(s: string, pattern: string, n: nat)
    requires n <= |s| && pattern <= s && |pattern| <= n
    ensures Contains(s[..n], pattern)
  {
    assert pattern <= s[..n];
  }

  /** An occurrence that begins before the last '{' of the placeholder at the end lies in front of it. */
  lemma FrontOnly(front: string, k: Kind, double: bool, j: Kind)
    requires front != "" && Pattern(j, double) <= front + Pattern(k, double)
    ensures Contains(front + LastBrace(double), Pattern(j, double))
  {
    hide Contains, BracelessFrom;
    var p, s := Pattern(j, double), front + Pattern(k, double);
    var at := |front| + |LastBrace(double)|;
    PatternShape(k, double);
    BracesFirst(j, double);
    assert s[at] == '{';
    ShortMatch(p, s, if double then 2 else 1, at);
    PrefixContained(s, p, at);
    assert s[..at] == front + LastBrace(double);
  }

  lemma ContainsTail(front: string, tail: string, pattern: string)
    requires front != "" && !Contains(front + tail, pattern)
    ensures !Contains(front[1..] + tail, pattern)
  {
    assert (front + tail)[1..] == front[1..] + tail;
  }

  /** A placeholder at the end is the only one of its kind. */
  lemma {:induction false} ReplaceLast(front: string, k: Kind, double: bool, value: string)
    requires !Contains(front + LastBrace(double), Pattern(k, double)) && Pattern(k, double) != ""
    ensures Replace(front + Pattern(k, double), Pattern(k, double), value) == front + value
  {
    hide Contains, Pattern, Replace, LastBrace;
    var p := Pattern(k, double);
    if front == "" {
      assert front + p == p && front + value == value;
      PassHits(p, value);
    } else {
      if p <= front + p {
        FrontOnly(front, k, double, k);
      }
      ContainsTail(front, LastBrace(double), p);
      ReplaceLast(front[1..], k, double, value);
      ReplaceCopies(front + p, p, value);
      FirstLetter(front, p, value);
    }
  }

  /** The passes up to the own one leave text without an opening brace alone. */
  lemma BracelessStays(c: string, n: nat, value: string)
    requires n < 6 && (forall i :: 0 <= i < |c| ==> c[i] != '{') && PatternAt(n) != ""
    ensures Replace(c, PatternAt(n), value) == c
  {
    hide Replace, Contains;
    PatternShape(KindAt(n), n < 3);
    NoBraceNoPattern(c, PatternAt(n));
    ReplaceNothing(c, PatternAt(n), value);
  }

  /** The own pass of the single form does not put back what a value ends within. */
  lemma OwnEndChanges(k: Kind, value: string, front: string, l: nat)
    requires 0 < l < |Pattern(k, false)| && value == front + Pattern(k, false)[..l] &&
             !Contains(value, Pattern(k, false))
    ensures Pattern(k, false) != "" &&
            Replace(front + Pattern(k, false), Pattern(k, false), value) != front + Pattern(k, false)
  {
    hide Replace, Contains, Pattern;
    var p := Pattern(k, false);
    ContainsFront(front, p[..l], p);
    assert front + LastBrace(false) == front;
    ReplaceLast(front, k, false, value);
    ContainsIs(value, p);
    assert (front + value)[|front|..] == value && (front + p)[|front|..] == p;
  }

  lemma CompletedPasses(k: Kind, double: bool, value: string, m: nat, front: string, l: nat)
    requires IndexOf(k, double) < m < 6 && CleanFrom(value, IndexOf(k, double) + 1)
    requires 0 < l < |PatternAt(m)| && value == front + PatternAt(m)[..l]
    ensures PassesFrom(front + PatternAt(m), IndexOf(k, double) + 1, MarkedValues(k, value)) != front + PatternAt(m)
  {
    hide Replace, Contains, MarkedValues, Pattern;
    PatternUnmarked(m);
    ContainsAtEnd(front, PatternAt(m));
    IndexedPattern(k, false);
    if m == IndexOf(k, false) {
      OwnEndChanges(k, value, front, l);
    }
    ChangesFrom(k, value, front + PatternAt(m), IndexOf(k, double) + 1, m);
  }

  /** A value that ends in the middle of a later placeholder, in front of the rest of that placeholder. */
  lemma CompletedChanges(k: Kind, double: bool, value: string, m: nat, front: string, l: nat)
    requires IndexOf(k, double) < m < 6 && CleanFrom(value, IndexOf(k, double) + 1)
    requires 0 < l < |PatternAt(m)| && value == front + PatternAt(m)[..l] && (m >= 3 || l >= 2)
    ensures var c := PatternAt(m)[l..];
            Uses([Hole(k, double), Text(c)], MarkedValues(k, value), k, double, value) &&
            RenderChained(Template([Hole(k, double), Text(c)]), MarkedValues(k, value))
              != Rendered([Hole(k, double), Text(c)], MarkedValues(k, value))
  {
    hide Replace, CleanFrom, MarkedValues, Inert, Pattern, RenderChained, Template, Rendered, PassesFrom;
    var v, p, c := MarkedValues(k, value), PatternAt(m), PatternAt(m)[l..];
    InertMarks(k, value);
    TailHasNoBrace(m, l);
    NoBraceInert(c);
    forall j | 0 <= j <= IndexOf(k, double)
      ensures PatternAt(j) != "" && Replace(c, PatternAt(j), ValueOf(v, KindAt(j))) == c
    {
      PatternUnmarked(j);
      BracelessStays(c, j, ValueOf(v, KindAt(j)));
    }
    assert value + c == front + p by { assert p == p[..l] + c; }
    TwoPieces(k, double, c, v);
    ChainIsPasses(Pattern(k, double) + c, v);
    OwnPassWith(k, double, c, 0, v);
    CompletedPasses(k, double, value, m, front, l);
  }

  lemma TailHasNoBrace(m: nat, l: nat)
    requires m < 6 && 0 < l < |PatternAt(m)| && (m >= 3 || l >= 2)
    ensures forall i :: 0 <= i < |PatternAt(m)[l..]| ==> PatternAt(m)[l..][i] != '{'
  {
    NoBraceInside(KindAt(m), m < 3);
    var p, skip := PatternAt(m), if m < 3 then 2 else 1;
    forall i | 0 <= i < |p[l..]| ensures p[l..][i] != '{' {
      assert p[l..][i] == p[skip..][l + i - skip];
    }
  }

  lemma TwoPieces(k: Kind, double: bool, c: string, v: Values)
    ensures Template([Hole(k, double), Text(c)]) == Pattern(k, double) + c
    ensures Rendered([Hole(k, double), Text(c)], v) == ValueOf(v, k) + c
  {
    assert [Hole(k, double), Text(c)][1..] == [Text(c)] && [Text(c)][1..] == [];
    assert Template([Text(c)]) == c + "" == c && Rendered([Text(c)], v) == c + "" == c;
  }

  lemma {:induction false} ContainsAtEnd(front: string, pattern: string)
    ensures Contains(front + pattern, pattern)
  {
    if front == "" {
      assert front + pattern == pattern;
    } else {
      ContainsAtEnd(front[1..], pattern);
      assert (front + pattern)[1..] == front[1..] + pattern;
    }
  }

  lemma {:induction false} ContainsFront(front: string, tail: string, pattern: string)
    requires !Contains(front + tail, pattern)
    ensures !Contains(front, pattern)
  {
    if front == "" {
      assert front + tail == tail;
    } else {
      ContainsTail(front, tail, pattern);
      ContainsFront(front[1..], tail, pattern);
    }
  }

  lemma ContainsIs(s: string, pattern: string)
    requires !Contains(s, pattern)
    ensures s != pattern
  {
  }

  /** Other values that are empty. */
  function EmptyOthers(k: Kind, value: string): Values {
    match k
    case Token => Values(value, "", "")
    case Name => Values("", value, "")
    case Id => Values("", "", value)
  }

  lemma {:induction false} OnlyLast(front: string, k: Kind, j: Kind)
    requires j != k && !Contains(front + "{", Pattern(j, true))
    ensures !Contains(front + Pattern(k, true), Pattern(j, true))
  {
    hide Pattern;
    if front == "" {
      OtherHoleAvoids(Hole(k, true), j, true);
      PatternShape(j, true);
      AvoidsIsAbsent(Pattern(k, true), Pattern(j, true));
      assert front + Pattern(k, true) == Pattern(k, true);
    } else {
      if Pattern(j, true) <= front + Pattern(k, true) {
        FrontOnly(front, k, true, j);
      }
      ContainsTail(front, "{", Pattern(j, true));
      OnlyLast(front[1..], k, j);
      assert (front + Pattern(k, true))[1..] == front[1..] + Pattern(k, true);
    }
  }

  lemma {:induction false} AvoidsIsAbsent(s: string, pattern: string)
    requires Avoids(s, pattern) && pattern != "" && pattern[0] == '{'
    ensures !Contains(s, pattern)
  {
    if s != "" {
      NotFoundHere(s, "", pattern);
      assert s + "" == s;
      AvoidsIsAbsent(s[1..], pattern);
    }
  }

  lemma {:induction false} PassesSkip(s: string, n: nat, m: nat, v: Values)
    requires n <= m <= 6 && forall j :: n <= j < m ==> !Contains(s, PatternAt(j))
    ensures PassesFrom(s, n, v) == PassesFrom(s, m, v)
    decreases m - n
  {
    if n < m {
      PatternUnmarked(n);
      ReplaceNothing(s, PatternAt(n), ValueOf(v, KindAt(n)));
      PassesSkip(s, n + 1, m, v);
    }
  }

  lemma ThreePieces(k: Kind, j: Kind, v: Values)
    ensures var pieces := [Hole(k, true), Hole(j, false), Text("}")];
            && Template(pieces) == Pattern(k, true) + (Pattern(j, false) + "}")
            && Rendered(pieces, v) == ValueOf(v, k) + (ValueOf(v, j) + "}")
  {
    var pieces := [Hole(k, true), Hole(j, false), Text("}")];
    assert pieces[1..] == [Hole(j, false), Text("}")] && pieces[1..][1..] == [Text("}")] && [Text("}")][1..] == [];
    assert Template([Text("}")]) == "}" && Rendered([Text("}")], v) == "}";
    FirstPiece(pieces[1..], v);
    FirstPiece(pieces, v);
  }

  lemma DoubleIsSingle(j: Kind)
    ensures "{" + (Pattern(j, false) + "}") == Pattern(j, true)
  {
  }

  /** The passes up to the own one find nothing in the single form of another placeholder and a brace. */
  lemma SingleStays(j: Kind, n: nat, value: string)
    requires n < 3 && PatternAt(n) != ""
    ensures Replace(Pattern(j, false) + "}", PatternAt(n), value) == Pattern(j, false) + "}"
  {
    hide Pattern, Replace;
    OtherHoleAvoids(Hole(j, false), KindAt(n), true);
    PatternShape(KindAt(n), true);
    PassSkips(Pattern(j, false), "}", PatternAt(n), value);
    NoBraceNoPattern("}", PatternAt(n));
    ReplaceNothing("}", PatternAt(n), value);
  }

  /** The later passes complete the double form and leave only what is in front of it. */
  lemma BracePasses(front: string, n: nat, m: nat, v: Values)
    requires n <= m < 3 && ValueOf(v, KindAt(m)) == "" && CleanFrom(front + "{", n)
    ensures PassesFrom(front + PatternAt(m), n, v) == front
  {
    hide Replace, Contains, Pattern;
    var s := front + PatternAt(m);
    forall j | n <= j < m ensures !Contains(s, PatternAt(j)) {
      assert PatternAt(j) == Pattern(KindAt(j), true) && PatternAt(m) == Pattern(KindAt(m), true);
      assert !Contains(front + "{", PatternAt(j));
      OnlyLast(front, KindAt(m), KindAt(j));
    }
    PassesSkip(s, n, m, v);
    PatternUnmarked(m);
    assert LastBrace(true) == "{";
    ReplaceLast(front, KindAt(m), true, "");
    assert front + "" == front;
    forall j | m < j < 6 ensures !Contains(front, PatternAt(j)) {
      ContainsFront(front, "{", PatternAt(j));
    }
    CleanStays(front, m + 1, v);
  }

  /** A value that ends in a brace, in front of the single form of a placeholder and another brace. */
  lemma BraceChanges(k: Kind, value: string, m: nat, front: string)
    requires IndexOf(k, true) < m < 3 && CleanFrom(value, IndexOf(k, true) + 1) && value == front + "{"
    ensures var pieces, v := [Hole(k, true), Hole(KindAt(m), false), Text("}")], EmptyOthers(k, value);
            Uses(pieces, v, k, true, value) && RenderChained(Template(pieces), v) != Rendered(pieces, v)
  {
    hide Replace, CleanFrom, Pattern, RenderChained, Template, Rendered, PassesFrom;
    var j, v := KindAt(m), EmptyOthers(k, value);
    var rest := Pattern(j, false) + "}";
    NoBraceInert("}");
    forall n | 0 <= n <= IndexOf(k, true)
      ensures PatternAt(n) != "" && Replace(rest, PatternAt(n), ValueOf(v, KindAt(n))) == rest
    {
      PatternUnmarked(n);
      SingleStays(j, n, ValueOf(v, KindAt(n)));
    }
    ThreePieces(k, j, v);
    ChainIsPasses(Pattern(k, true) + rest, v);
    OwnPassWith(k, true, rest, 0, v);
    DoubleIsSingle(j);
    assert value + rest == front + ("{" + rest);
    BracePasses(front, IndexOf(k, true) + 1, m, v);
  }

  /** A value in one form of its placeholder renders as intended in every well-formed template, among any inert values,
      exactly if no placeholder of a later pass begins in it, not even one that the text behind it would complete, or
      it is the single form of its own. */
  lemma SafeExactly(k: Kind, double: bool, value: string)
    ensures (forall pieces, v :: Uses(pieces, v, k, double, value) ==>
              RenderChained(Template(pieces), v) == Rendered(pieces, v))
            <==> Safe(k, double, value)
  {
    hide RenderChained, Template, Rendered, Safe, Uses;
    if Safe(k, double, value) {
      forall pieces, v | Uses(pieces, v, k, double, value)
        ensures RenderChained(Template(pieces), v) == Rendered(pieces, v)
      {
        SafeRenders(pieces, v, k, double, value);
      }
    } else {
      var pieces, v := UnsafeSomewhere(k, double, value);
    }
  }

  lemma UnsafeSomewhere(k: Kind, double: bool, value: string) returns (pieces: seq<Piece>, v: Values)
    requires !Safe(k, double, value)
    ensures Uses(pieces, v, k, double, value) && RenderChained(Template(pieces), v) != Rendered(pieces, v)
  {
    hide RenderChained, Template, Rendered, Contains, Avoids, Pattern, Inert, MarkedValues;
    if !CleanFrom(value, IndexOf(k, double) + 1) {
      pieces, v := [Hole(k, double)], MarkedValues(k, value);
      InertMarks(k, value);
      ValueChanges(k, double, value);
      OnePiece(k, double, v);
      ChainIsPasses(Pattern(k, double), v);
      OwnPass(k, double, 0, v);
    } else {
      var m :| IndexOf(k, double) < m < 6 && !Avoids(value, PatternAt(m));
      var front, l := EndsWithin(value, PatternAt(m));
      if m >= 3 || l >= 2 {
        pieces, v := [Hole(k, double), Text(PatternAt(m)[l..])], MarkedValues(k, value);
        CompletedChanges(k, double, value, m, front, l);
      } else {
        pieces, v := [Hole(k, true), Hole(KindAt(m), false), Text("}")], EmptyOthers(k, value);
        PatternShape(KindAt(m), true);
        assert PatternAt(m)[..1] == "{";
        BraceChanges(k, value, m, front);
      }
    }
  }

  lemma OnePiece(k: Kind, double: bool, v: Values)
    ensures Template([Hole(k, double)]) == Pattern(k, double) && Rendered([Hole(k, double)], v) == ValueOf(v, k)
  {
    assert [Hole(k, double)][1..] == [];
    assert Pattern(k, double) + "" == Pattern(k, double) && ValueOf(v, k) + "" == ValueOf(v, k);
  }

  // ---------- an empty name ----------

  /** The registry shows the id where the name is empty. */
  function WithDisplayName(v: Values): Values {
    if v.name == "" then v.(name := v.id) else v
  }

  lemma {:induction false} NameHolesCount(pieces: seq<Piece>, v: Values, w: Values)
    requires w == v.(name := w.name) && v.name == ""
    ensures |Rendered(pieces, w)| == |Rendered(pieces, v)| + |w.name| * NameHoles(pieces)
  {
    if pieces != [] {
      NameHolesCount(pieces[1..], v, w);
      OneMoreTimes(|w.name|, NameHoles(pieces[1..]));
    }
  }

  lemma OneMoreTimes(a: nat, b: nat)
    ensures a * (b + 1) == a * b + a
  {
  }

  lemma {:induction false} NoNameHoles(pieces: seq<Piece>, v: Values, w: Values)
    requires w == v.(name := w.name) && NameHoles(pieces) == 0
    ensures Rendered(pieces, w) == Rendered(pieces, v)
  {
    if pieces != [] {
      NoNameHoles(pieces[1..], v, w);
    }
  }

  function NameHoles(pieces: seq<Piece>): nat {
    if pieces == [] then 0 else NameHoles(pieces[1..]) + if pieces[0].Hole? && pieces[0].kind == Name then 1 else 0
  }

  lemma DisplayNameMatters(pieces: seq<Piece>, v: Values)
    ensures Rendered(pieces, v) == Rendered(pieces, WithDisplayName(v)) <==>
              v.name != "" || v.id == "" || NameHoles(pieces) == 0
  {
    var w := WithDisplayName(v);
    if v.name == "" {
      NameHolesCount(pieces, v, w);
      if NameHoles(pieces) == 0 {
        NoNameHoles(pieces, v, w);
      }
      if v.id != "" && NameHoles(pieces) > 0 {
        assert |w.name| * NameHoles(pieces) > 0;
      }
    }
  }

  /** On a well-formed template with safe values, the manager and the registry render the same link exactly
      when the name is not empty, or the id is empty too, or the template does not show the name. */
  lemma RenderingsAgreeExactly(pieces: seq<Piece>, v: Values)
    requires WellFormed(pieces) && SafeHoles(pieces, v)
    ensures RenderChained(Template(pieces), v) == RenderAtOnce(Template(pieces), WithDisplayName(v))
       <==> v.name != "" || v.id == "" || NameHoles(pieces) == 0
  {
    ChainedRenders(pieces, v);
    AtOnceRenders(pieces, WithDisplayName(v));
    DisplayNameMatters(pieces, v);
  }

  // ---------- white space around a template ----------

  predicate Blank(s: string) {
    forall i :: 0 <= i < |s| ==> IsSpace(s[i])
  }

  lemma NoSpaceInPattern(k: Kind, double: bool)
    ensures forall i :: 0 <= i < |Pattern(k, double)| ==> !IsSpace(Pattern(k, double)[i])
  {
    assert forall i :: 0 <= i < |Word(k)| ==> !IsSpace(Word(k)[i]);
  }

  lemma BlankAvoids(s: string, pattern: string)
    requires Blank(s)
    ensures Avoids(s, pattern)
  {
    NoBraceAvoids(s, pattern);
  }

  /** What the margins need to know of a pattern. */
  predicate SpaceFree(pattern: string) {
    pattern != "" && pattern[0] == '{' && forall i :: 0 <= i < |pattern| ==> !IsSpace(pattern[i])
  }

  lemma PassKeepsMargins(left: string, core: string, right: string, k: Kind, double: bool, value: string)
    requires Blank(left) && Blank(right)
    ensures Replace(left + core + right, Pattern(k, double), value) ==
              left + Replace(core, Pattern(k, double), value) + right
  {
    var pattern := Pattern(k, double);
    PatternShape(k, double);
    NoSpaceInPattern(k, double);
    PassKeepsRight(core, right, pattern, value);
    BlankAvoids(left, pattern);
    PassSkips(left, core + right, pattern, value);
    var done := Replace(core, pattern, value);
    assert left + core + right == left + (core + right) && left + done + right == left + (done + right);
  }

  lemma NoPatternAcross(core: string, right: string, pattern: string)
    requires Blank(right) && SpaceFree(pattern)
    ensures pattern <= core + right <==> pattern <= core
  {
    var s := core + right;
    if |core| < |pattern| <= |s| {
      assert s[|core|] == right[0] && IsSpace(right[0]);
      assert pattern[|core|] != s[|core|];
    }
  }

  lemma ReplaceFinds(s: string, pattern: string, value: string)
    requires pattern != "" && pattern <= s
    ensures Replace(s, pattern, value) == value + Replace(s[|pattern|..], pattern, value)
  {
  }

  lemma Shift(core: string, right: string, n: nat)
    requires n <= |core|
    ensures (core + right)[n..] == core[n..] + right
  {
  }

  lemma {:induction false} PassKeepsRight(core: string, right: string, pattern: string, value: string)
    requires Blank(right) && SpaceFree(pattern)
    ensures Replace(core + right, pattern, value) == Replace(core, pattern, value) + right
    decreases |core|
  {
    hide Blank, Replace, Avoids;
    NoPatternAcross(core, right, pattern);
    if core == "" {
      BlankAvoids(right, pattern);
      PassSkips(right, "", pattern, value);
      ReplaceEmpty(pattern, value);
      assert core + right == right && right + "" == right;
    } else if pattern <= core {
      var rest := core[|pattern|..];
      Shift(core, right, |pattern|);
      PassKeepsRight(rest, right, pattern, value);
      ReplaceFinds(core, pattern, value);
      ReplaceFinds(core + right, pattern, value);
      assert value + (Replace(rest, pattern, value) + right) == value + Replace(rest, pattern, value) + right;
    } else {
      var rest := core[1..];
      Shift(core, right, 1);
      PassKeepsRight(rest, right, pattern, value);
      ReplaceCopies(core, pattern, value);
      ReplaceCopies(core + right, pattern, value);
      assert [core[0]] + (Replace(rest, pattern, value) + right) == [core[0]] + Replace(rest, pattern, value) + right;
    }
  }

  lemma ReplaceEmpty(pattern: string, value: string)
    requires pattern != ""
    ensures Replace("", pattern, value) == ""
  {
  }

  /** The chain leaves the white space around a template alone. */
  lemma ChainKeepsMargins(left: string, core: string, right: string, v: Values)
    requires Blank(left) && Blank(right)
    ensures RenderChained(left + core + right, v) == left + RenderChained(core, v) + right
  {
    var s1 := Replace(core, Pattern(Token, true), v.token);
    var s2 := Replace(s1, Pattern(Name, true), v.name);
    var s3 := Replace(s2, Pattern(Id, true), v.id);
    var s4 := Replace(s3, Pattern(Token, false), v.token);
    var s5 := Replace(s4, Pattern(Name, false), v.name);
    PassKeepsMargins(left, core, right, Token, true, v.token);
    PassKeepsMargins(left, s1, right, Name, true, v.name);
    PassKeepsMargins(left, s2, right, Id, true, v.id);
    PassKeepsMargins(left, s3, right, Token, false, v.token);
    PassKeepsMargins(left, s4, right, Name, false, v.name);
    PassKeepsMargins(left, s5, right, Id, false, v.id);
  }

  // ---------- templates and links as written ----------

  /** The template that the pieces spell. */
  ghost function Spelled(pieces: seq<Piece>): string {
    if pieces == [] then "" else
      (match pieces[0]
       case Text(text) => text
       case Hole(Token, double) => if double then "{{token}}" else "{token}"
       case Hole(Name, double) => if double then "{{name}}" else "{name}"
       case Hole(Id, double) => if double then "{{id}}" else "{id}") + Spelled(pieces[1..])
  }

  /** The link that shows a token, a name and an id in their places. */
  ghost function Shown(pieces: seq<Piece>, token: string, name: string, id: string): string {
    if pieces == [] then "" else
      (match pieces[0]
       case Text(text) => text
       case Hole(Token, _) => token
       case Hole(Name, _) => name
       case Hole(Id, _) => id) + Shown(pieces[1..], token, name, id)
  }

  lemma PatternsSpelled()
    ensures forall double :: Pattern(Token, double) == if double then "{{token}}" else "{token}"
    ensures forall double :: Pattern(Name, double) == if double then "{{name}}" else "{name}"
    ensures forall double :: Pattern(Id, double) == if double then "{{id}}" else "{id}"
  {
    assert "{{" + "token" + "}}" == "{{token}}" && "{" + "token" + "}" == "{token}";
    assert "{{" + "name" + "}}" == "{{name}}" && "{" + "name" + "}" == "{name}";
    assert "{{" + "id" + "}}" == "{{id}}" && "{" + "id" + "}" == "{id}";
  }

  lemma {:induction false} SpelledIsTemplate(pieces: seq<Piece>)
    ensures Spelled(pieces) == Template(pieces)
  {
    hide Pattern;
    PatternsSpelled();
    if pieces != [] {
      SpelledIsTemplate(pieces[1..]);
    }
  }

  lemma {:induction false} ShownIsRendered(pieces: seq<Piece>, v: Values)
    ensures Shown(pieces, v.token, v.name, v.id) == Rendered(pieces, v)
  {
    if pieces != [] {
      ShownIsRendered(pieces[1..], v);
    }
  }
}
