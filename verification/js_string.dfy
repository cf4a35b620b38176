/**
 * The JavaScript string operations the source relies on: `trim`, ASCII case mapping,
 * `startsWith`/`endsWith`, `split` on one character, `join`, decimal rendering of
 * integers and the `/^\d{4}$/` test.
 */
module JsString {

  /** The characters `String.prototype.trim` removes: WhiteSpace and LineTerminator. */
  predicate IsWhitespace(c: char) {
    c == ' ' || c == '\t' || c == '\n' || c == '\r' || c == '\U{000B}' || c == '\U{000C}'
    || c == '\U{00A0}' || c == '\U{FEFF}' || c == '\U{1680}' || ('\U{2000}' <= c <= '\U{200A}')
    || c == '\U{2028}' || c == '\U{2029}' || c == '\U{202F}' || c == '\U{205F}' || c == '\U{3000}'
  }

  /** The characters `.` in a regular expression does not match. */
  predicate IsLineTerminator(c: char) {
    c == '\n' || c == '\r' || c == '\U{2028}' || c == '\U{2029}'
  }

  predicate IsDigit(c: char) { '0' <= c <= '9' }

  predicate IsAsciiLetter(c: char) { ('a' <= c <= 'z') || ('A' <= c <= 'Z') }

  /** `s` without its leading whitespace. */
  function TrimStart(s: string): string
  {
    if s == [] || !IsWhitespace(s[0]) then s else TrimStart(s[1..])
  }

  /** `s` without its trailing whitespace. */
  function TrimEnd(s: string): string
  {
    if s == [] || !IsWhitespace(s[|s| - 1]) then s else TrimEnd(s[..|s| - 1])
  }

  /** `TrimStart` removes a run of whitespace from the front and nothing else. */
  lemma {:induction false} TrimStartShape(s: string)
    ensures var r := TrimStart(s);
      && |r| <= |s| && r == s[|s| - |r|..]
      && (r == "" || !IsWhitespace(r[0]))
      && (forall i :: 0 <= i < |s| - |r| ==> IsWhitespace(s[i]))
    decreases |s|
  {
    if s != [] && IsWhitespace(s[0]) {
      TrimStartShape(s[1..]);
    }
  }

  /** `TrimEnd` removes a run of whitespace from the back and nothing else. */
  lemma {:induction false} TrimEndShape(s: string)
    ensures var r := TrimEnd(s);
      && |r| <= |s| && r == s[..|r|]
      && (r == "" || !IsWhitespace(r[|r| - 1]))
      && (forall i :: |r| <= i < |s| ==> IsWhitespace(s[i]))
    decreases |s|
  {
    if s != [] && IsWhitespace(s[|s| - 1]) {
      TrimEndShape(s[..|s| - 1]);
    }
  }

  /** `s.trim()`: neither end of the result is whitespace, and only whitespace was removed. */
  function Trim(s: string): (r: string)
    ensures |r| <= |s|
    ensures r == "" || (!IsWhitespace(r[0]) && !IsWhitespace(r[|r| - 1]))
    ensures (forall i :: 0 <= i < |s| ==> IsWhitespace(s[i])) <==> r == ""
  {
    var u := TrimStart(s);
    TrimStartShape(s);
    TrimEndShape(u);
    TrimEndKeepsClean(u);
    TrimEnd(u)
  }

  /** Trimming the end of a string that starts with a non-whitespace character leaves that character. */
  lemma TrimEndKeepsClean(u: string)
    requires u == "" || !IsWhitespace(u[0])
    ensures TrimEnd(u) == "" ==> u == ""
  {
    TrimEndShape(u);
  }

  lemma {:induction false} TrimStartOfClean(s: string)
    requires s == "" || !IsWhitespace(s[0])
    ensures TrimStart(s) == s
  {
  }

  lemma {:induction false} TrimEndOfClean(s: string)
    requires s == "" || !IsWhitespace(s[|s| - 1])
    ensures TrimEnd(s) == s
  {
  }

  /** A string with no whitespace at either end is its own trim. */
  lemma TrimOfClean(s: string)
    requires s == "" || (!IsWhitespace(s[0]) && !IsWhitespace(s[|s| - 1]))
    ensures Trim(s) == s
  {
    TrimStartOfClean(s);
    TrimEndOfClean(s);
  }

  /**
   * The reference reading of `trim`: `s[a..b]` keeps the middle of `s`, everything before `a`
   * and from `b` on is whitespace, and the kept part neither starts nor ends with whitespace.
   */
  predicate TrimmedAt(s: string, a: int, b: int)
  {
    && 0 <= a <= b <= |s|
    && (forall i :: 0 <= i < a ==> IsWhitespace(s[i]))
    && (forall i :: b <= i < |s| ==> IsWhitespace(s[i]))
    && (a == b || (!IsWhitespace(s[a]) && !IsWhitespace(s[b - 1])))
  }

  /** `Trim` cuts `s` at bounds of the reference reading. */
  lemma TrimHasBounds(s: string) returns (a: int, b: int)
    ensures TrimmedAt(s, a, b) && Trim(s) == s[a..b]
  {
    var u := TrimStart(s);
    TrimStartShape(s);
    TrimEndShape(u);
    var r := TrimEnd(u);
    a := |s| - |u|;
    b := a + |r|;
    assert r == s[a..b];
    forall i | b <= i < |s|
      ensures IsWhitespace(s[i])
    {
      assert s[i] == u[i - a];
    }
    if r != "" {
      assert r[0] == u[0];
    }
  }

  /** Bounds of the reference reading are unique up to the text they keep, which is `Trim(s)`. */
  lemma TrimOfBounds(s: string, a: int, b: int)
    requires TrimmedAt(s, a, b)
    ensures Trim(s) == s[a..b]
  {
    var a', b' := TrimHasBounds(s);
  }

  /** Trimming twice is trimming once. */
  lemma TrimIdempotent(s: string)
    ensures Trim(Trim(s)) == Trim(s)
  {
    TrimOfClean(Trim(s));
  }

  function LowerChar(c: char): (d: char)
  {
    if 'A' <= c <= 'Z' then (c as int + 32) as char else c
  }

  function UpperChar(c: char): (d: char)
  {
    if 'a' <= c <= 'z' then (c as int - 32) as char else c
  }

  /** `toLowerCase` on the ASCII range: letters A-Z become a-z, everything else is kept. */
  function ToLower(s: string): (r: string)
    ensures |r| == |s|
    ensures forall i :: 0 <= i < |s| ==> r[i] == LowerChar(s[i])
  {
    seq(|s|, i requires 0 <= i < |s| => LowerChar(s[i]))
  }

  /** `toUpperCase` on the ASCII range. */
  function ToUpper(s: string): (r: string)
    ensures |r| == |s|
    ensures forall i :: 0 <= i < |s| ==> r[i] == UpperChar(s[i])
  {
    seq(|s|, i requires 0 <= i < |s| => UpperChar(s[i]))
  }

  /** A lowered string has no upper-case ASCII letter, so lowering it again changes nothing. */
  lemma ToLowerIdempotent(s: string)
    ensures ToLower(ToLower(s)) == ToLower(s)
    ensures forall i :: 0 <= i < |s| ==> !('A' <= ToLower(s)[i] <= 'Z')
  {
  }

  /** A string without upper-case letters is its own lower case. */
  lemma ToLowerOfLower(s: string)
    requires forall i :: 0 <= i < |s| ==> !('A' <= s[i] <= 'Z')
    ensures ToLower(s) == s
  {
    assert forall i :: 0 <= i < |s| ==> ToLower(s)[i] == s[i];
  }

  /** Lowering maps whitespace to itself and nothing else to whitespace. */
  lemma LowerCharWhitespace(c: char)
    ensures IsWhitespace(LowerChar(c)) == IsWhitespace(c)
    ensures IsWhitespace(c) ==> LowerChar(c) == c
  {
  }

  lemma {:induction false} TrimStartLower(s: string)
    ensures TrimStart(ToLower(s)) == ToLower(TrimStart(s))
    decreases |s|
  {
    if s != [] {
      var l := ToLower(s);
      LowerCharWhitespace(s[0]);
      assert l[0] == LowerChar(s[0]);
      if IsWhitespace(s[0]) {
        assert TrimStart(l) == TrimStart(l[1..]);
        assert l[1..] == ToLower(s[1..]);
        TrimStartLower(s[1..]);
      } else {
        assert TrimStart(l) == l;
      }
    }
  }

  lemma {:induction false} TrimEndLower(s: string)
    ensures TrimEnd(ToLower(s)) == ToLower(TrimEnd(s))
    decreases |s|
  {
    if s != [] {
      var l := ToLower(s);
      var n := |s| - 1;
      LowerCharWhitespace(s[n]);
      assert l[n] == LowerChar(s[n]);
      if IsWhitespace(s[n]) {
        assert TrimEnd(l) == TrimEnd(l[..n]);
        assert l[..n] == ToLower(s[..n]);
        TrimEndLower(s[..n]);
      } else {
        assert TrimEnd(l) == l;
      }
    }
  }

  /** Lowering keeps a string free of leading and trailing whitespace. */
  lemma ToLowerCleanEnds(s: string)
    requires s == "" || (!IsWhitespace(s[0]) && !IsWhitespace(s[|s| - 1]))
    ensures ToLower(s) == "" || (!IsWhitespace(ToLower(s)[0]) && !IsWhitespace(ToLower(s)[|s| - 1]))
  {
    if s != "" {
      LowerCharWhitespace(s[0]);
      LowerCharWhitespace(s[|s| - 1]);
    }
  }

  /** Lowering a string with clean ends keeps them clean and leaves no upper-case letter. */
  lemma LowerOfTrimmed(s: string)
    requires s == "" || (!IsWhitespace(s[0]) && !IsWhitespace(s[|s| - 1]))
    ensures var l := ToLower(s);
      && (l == "" <==> s == "")
      && (l == "" || (!IsWhitespace(l[0]) && !IsWhitespace(l[|l| - 1])))
      && (forall i :: 0 <= i < |l| ==> !('A' <= l[i] <= 'Z'))
  {
    ToLowerCleanEnds(s);
    ToLowerIdempotent(s);
  }

  /** Lowering never creates or removes whitespace, so it commutes with `trim`. */
  lemma TrimLowerCommute(s: string)
    ensures Trim(ToLower(s)) == ToLower(Trim(s))
  {
    TrimStartLower(s);
    TrimEndLower(TrimStart(s));
  }

  predicate StartsWith(s: string, prefix: string) {
    |prefix| <= |s| && s[..|prefix|] == prefix
  }

  predicate EndsWith(s: string, suffix: string) {
    |suffix| <= |s| && s[|s| - |suffix|..] == suffix
  }

  /** The regular expression test `/@mit\.edu$/i`: ASCII case-insensitive suffix. */
  predicate EndsWithMitEdu(s: string) {
    |s| >= 8 && ToLower(s[|s| - 8..]) == "@mit.edu"
  }

  /** A lower-cased string passes `/@mit\.edu$/i` exactly when it ends in "@mit.edu". */
  lemma MitEduOfLower(s: string)
    ensures EndsWithMitEdu(ToLower(s)) <==> EndsWith(ToLower(s), "@mit.edu")
  {
    var e := ToLower(s);
    if |e| >= 8 {
      var t := e[|e| - 8..];
      assert forall i :: 0 <= i < 8 ==> t[i] == LowerChar(s[|s| - 8 + i]);
      assert ToLower(t) == t;
    }
  }

  /** The regular expression test `/^\d{4}$/`. */
  predicate IsFourDigits(s: string) {
    |s| == 4 && forall i :: 0 <= i < 4 ==> IsDigit(s[i])
  }

  /** Index of the first occurrence of `c`, or `|s|` when there is none. */
  function IndexOf(s: string, c: char): (k: nat)
    ensures k <= |s|
    ensures k < |s| ==> s[k] == c
    ensures forall i :: 0 <= i < k ==> s[i] != c
  {
    if s == [] then 0 else if s[0] == c then 0 else 1 + IndexOf(s[1..], c)
  }

  /** `s.split(sep)` for a one-character separator: never empty, and joining restores `s`. */
  function Split(s: string, sep: char): (parts: seq<string>)
    ensures |parts| >= 1
    ensures forall p :: p in parts ==> sep !in p
    decreases |s|
  {
    var k := IndexOf(s, sep);
    if k == |s| then [s] else [s[..k]] + Split(s[k + 1..], sep)
  }

  function Join(parts: seq<string>, sep: string): string
  {
    if parts == [] then "" else if |parts| == 1 then parts[0] else parts[0] + sep + Join(parts[1..], sep)
  }

  lemma {:induction false} SplitJoin(s: string, sep: char)
    ensures Join(Split(s, sep), [sep]) == s
    decreases |s|
  {
    var k := IndexOf(s, sep);
    if k < |s| {
      var rest := s[k + 1..];
      SplitJoin(rest, sep);
      assert Split(s, sep) == [s[..k]] + Split(rest, sep);
      assert s == s[..k] + [sep] + rest;
    }
  }

  /** A string without the separator splits into itself alone. */
  lemma SplitNone(s: string, sep: char)
    requires sep !in s
    ensures Split(s, sep) == [s]
  {
    assert IndexOf(s, sep) == |s|;
  }

  /** Splitting at the first separator: the part before it, then the split of the rest. */
  lemma SplitFirst(a: string, sep: char, b: string)
    requires sep !in a
    ensures Split(a + [sep] + b, sep) == [a] + Split(b, sep)
  {
    var s := a + [sep] + b;
    var k := IndexOf(s, sep);
    assert s[|a|] == sep;
    assert forall i :: 0 <= i < |a| ==> s[i] == a[i];
    assert k == |a|;
    assert s[..k] == a && s[k + 1..] == b;
  }

  /** The element at `i` of `s.split(sep)`, or None (`undefined`) past the end. */
  function SplitAt(s: string, sep: char, i: nat): (r: Option<string>)
  {
    var parts := Split(s, sep);
    if i < |parts| then Some(parts[i]) else None
  }

  function DigitChar(d: nat): (c: char)
    requires d < 10
    ensures IsDigit(c)
  {
    ('0' as int + d) as char
  }

  function DigitValue(c: char): (d: nat)
    requires IsDigit(c)
    ensures d < 10 && DigitChar(d) == c
  {
    c as int - '0' as int
  }

  /** Decimal rendering of a natural number, as `String(n)` writes it. */
  function NatToString(n: nat): (r: string)
    ensures |r| >= 1
    ensures forall i :: 0 <= i < |r| ==> IsDigit(r[i])
  {
    if n < 10 then [DigitChar(n)] else NatToString(n / 10) + [DigitChar(n % 10)]
  }

  function IntToString(n: int): (r: string)
  {
    if n < 0 then "-" + NatToString(-n) else NatToString(n)
  }

  /** The value of a string of decimal digits (the empty string has value 0). */
  function DigitsValue(s: string): (v: nat)
    requires forall i :: 0 <= i < |s| ==> IsDigit(s[i])
  {
    if s == [] then 0 else 10 * DigitsValue(s[..|s| - 1]) + DigitValue(s[|s| - 1])
  }

  /** Reading back a rendered number gives the number. */
  lemma {:induction false} DigitsValueOfNatToString(n: nat)
    ensures DigitsValue(NatToString(n)) == n
  {
    if n >= 10 {
      var r := NatToString(n);
      assert r[..|r| - 1] == NatToString(n / 10);
      DigitsValueOfNatToString(n / 10);
    }
  }

  /** The longest prefix of `s` made of decimal digits. */
  function DigitPrefix(s: string): (p: string)
    ensures |p| <= |s| && p == s[..|p|]
    ensures forall i :: 0 <= i < |p| ==> IsDigit(s[i])
    ensures |p| < |s| ==> !IsDigit(s[|p|])
  {
    if s == [] || !IsDigit(s[0]) then "" else [s[0]] + DigitPrefix(s[1..])
  }

  /** `s.replaceAll(c, rep)` for a one-character pattern. */
  function ReplaceAll(s: string, c: char, rep: string): (r: string)
    ensures c !in rep ==> c !in r
    ensures forall d :: d in r ==> d in s || d in rep
  {
    if s == [] then "" else (if s[0] == c then rep else [s[0]]) + ReplaceAll(s[1..], c, rep)
  }

  /**
   * Where a character falls in UTF-16 code-unit order. A character above U+FFFF is written
   * with a leading surrogate in U+D800-U+DBFF, so it sorts after everything below U+D800
   * and before the block U+E000-U+FFFF; within each part the code point decides.
   */
  function UnitRank(c: char): (r: int)
    ensures 0xE000 <= c as int <= 0xFFFF ==> r > 0x10FFFF
    ensures !(0xE000 <= c as int <= 0xFFFF) ==> r == c as int
  {
    if 0xE000 <= c as int <= 0xFFFF then c as int + 0x110000 else c as int
  }

  /**
   * The default order of `Array.prototype.sort` on strings: lexicographic by UTF-16 code
   * unit, which `LexLeIsUnitOrder` shows is lexicographic by `UnitRank` per character.
   */
  predicate LexLe(a: string, b: string)
    decreases |a|
  {
    a == [] || (b != [] && (UnitRank(a[0]) < UnitRank(b[0]) || (a[0] == b[0] && LexLe(a[1..], b[1..]))))
  }

  /** The UTF-16 code units of one character: itself, or its surrogate pair. */
  function CodeUnits(c: char): (u: seq<int>)
    ensures 1 <= |u| <= 2
  {
    if c as int <= 0xFFFF then [c as int]
    else [0xD800 + (c as int - 0x10000) / 0x400, 0xDC00 + (c as int - 0x10000) % 0x400]
  }

  /** The UTF-16 encoding of a string, as JavaScript stores it. */
  function Utf16(s: string): seq<int>
  {
    if s == [] then [] else CodeUnits(s[0]) + Utf16(s[1..])
  }

  /** Lexicographic order on code-unit sequences, which is how JavaScript compares strings. */
  predicate UnitsLe(a: seq<int>, b: seq<int>)
    decreases |a|
  {
    a == [] || (b != [] && (a[0] < b[0] || (a[0] == b[0] && UnitsLe(a[1..], b[1..]))))
  }

  lemma {:induction false} UnitsLeCommonPrefix(p: seq<int>, s: seq<int>, t: seq<int>)
    ensures UnitsLe(p + s, p + t) <==> UnitsLe(s, t)
    decreases |p|
  {
    if p != [] {
      assert (p + s)[1..] == p[1..] + s && (p + t)[1..] == p[1..] + t;
      UnitsLeCommonPrefix(p[1..], s, t);
    } else {
      assert p + s == s && p + t == t;
    }
  }

  /** Two different characters are ordered by their first differing code unit, as `UnitRank` says. */
  lemma UnitsLeDiffer(x: char, y: char, s: seq<int>, t: seq<int>)
    requires x != y
    ensures UnitsLe(CodeUnits(x) + s, CodeUnits(y) + t) <==> UnitRank(x) < UnitRank(y)
  {
    var u, w := CodeUnits(x) + s, CodeUnits(y) + t;
    assert u[0] == CodeUnits(x)[0] && w[0] == CodeUnits(y)[0];
    if x as int > 0xFFFF && y as int > 0xFFFF && u[0] == w[0] {
      assert u[1..][0] == CodeUnits(x)[1] && w[1..][0] == CodeUnits(y)[1];
    }
  }

  /** `LexLe` is exactly the code-unit order of the strings' UTF-16 encodings. */
  lemma {:induction false} LexLeIsUnitOrder(a: string, b: string)
    ensures LexLe(a, b) <==> UnitsLe(Utf16(a), Utf16(b))
    decreases |a|
  {
    if a != [] && b != [] {
      if a[0] == b[0] {
        LexLeIsUnitOrder(a[1..], b[1..]);
        UnitsLeCommonPrefix(CodeUnits(a[0]), Utf16(a[1..]), Utf16(b[1..]));
      } else {
        UnitsLeDiffer(a[0], b[0], Utf16(a[1..]), Utf16(b[1..]));
      }
    }
  }

  lemma {:induction false} LexLeTotal(a: string, b: string)
    ensures LexLe(a, b) || LexLe(b, a)
    decreases |a|
  {
    if a != [] && b != [] && a[0] == b[0] {
      LexLeTotal(a[1..], b[1..]);
    }
  }

  lemma {:induction false} LexLeAntisymmetric(a: string, b: string)
    requires LexLe(a, b) && LexLe(b, a)
    ensures a == b
    decreases |a|
  {
    if a != [] {
      LexLeAntisymmetric(a[1..], b[1..]);
      assert a == [a[0]] + a[1..] && b == [b[0]] + b[1..];
    }
  }

  lemma {:induction false} LexLeTransitive(a: string, b: string, c: string)
    requires LexLe(a, b) && LexLe(b, c)
    ensures LexLe(a, c)
    decreases |a|
  {
    if a != [] && b != [] && c != [] && a[0] == b[0] && b[0] == c[0] {
      LexLeTransitive(a[1..], b[1..], c[1..]);
    }
  }

  predicate IsLeast(x: string, s: set<string>) {
    x in s && forall y :: y in s ==> LexLe(x, y)
  }

  lemma {:induction false} LeastExists(s: set<string>)
    requires s != {}
    ensures exists x :: IsLeast(x, s)
    decreases |s|
  {
    var x :| x in s;
    var rest := s - {x};
    if rest == {} {
      assert s == {x};
      LexLeTotal(x, x);
      assert IsLeast(x, s);
    } else {
      LeastExists(rest);
      var m :| IsLeast(m, rest);
      LexLeTotal(x, m);
      if LexLe(x, m) {
        forall y | y in s ensures LexLe(x, y) {
          if y != x { LexLeTransitive(x, m, y); } else { LexLeTotal(x, x); }
        }
        assert IsLeast(x, s);
      } else {
        assert IsLeast(m, s);
      }
    }
  }

  lemma LeastUnique(x: string, x': string, s: set<string>)
    requires IsLeast(x, s) && IsLeast(x', s)
    ensures x == x'
  {
    LexLeAntisymmetric(x, x');
  }

  /** The least string of a non-empty set. */
  function Least(s: set<string>): (x: string)
    requires s != {}
    ensures IsLeast(x, s)
  {
    LeastExists(s);
    forall x, x' | IsLeast(x, s) && IsLeast(x', s) ensures x == x' { LeastUnique(x, x', s); }
    var x :| IsLeast(x, s); x
  }

  /** Strictly ascending: every element once, in order. */
  predicate StrictlySorted(r: seq<string>) {
    forall i, j :: 0 <= i < j < |r| ==> LexLe(r[i], r[j]) && r[i] != r[j]
  }

  lemma SortedCons(x: string, rest: seq<string>, s: set<string>)
    requires IsLeast(x, s) && StrictlySorted(rest)
    requires forall k :: k in rest ==> k in s && k != x
    ensures StrictlySorted([x] + rest)
  {
    var r := [x] + rest;
    forall i, j | 0 <= i < j < |r| ensures LexLe(r[i], r[j]) && r[i] != r[j] {
      assert r[j] == rest[j - 1];
      if i > 0 {
        assert r[i] == rest[i - 1];
      }
    }
  }

  /** `Object.keys(m).sort()`: every key once, in ascending order. */
  function SortedKeys(s: set<string>): (r: seq<string>)
    ensures |r| == |s|
    ensures forall k :: k in s <==> k in r
    ensures StrictlySorted(r)
    decreases |s|
  {
    if s == {} then []
    else
      var x := Least(s);
      var rest := SortedKeys(s - {x});
      SortedCons(x, rest, s);
      [x] + rest
  }
  /** `Object.keys(m).sort().join(", ")` for the keys of a map. */
  function KeyList(keys: set<string>): string
  {
    Join(SortedKeys(keys), ", ")
  }

  /**
   * An emoji (U+1F600) sorts before a fullwidth exclamation mark (U+FF01): its leading
   * surrogate 0xD83D is below 0xFF01, although its code point is above.
   */
  lemma AstralBeforeHighBmp()
    ensures LexLe("\U{1F600}", "\U{FF01}") && !LexLe("\U{FF01}", "\U{1F600}")
    ensures SortedKeys({"\U{1F600}", "\U{FF01}"}) == ["\U{1F600}", "\U{FF01}"]
  {
    var s := {"\U{1F600}", "\U{FF01}"};
    assert IsLeast("\U{1F600}", s);
    LeastUnique(Least(s), "\U{1F600}", s);
    assert s - {"\U{1F600}"} == {"\U{FF01}"};
    var r := SortedKeys(s);
    assert |r| == 2 && r[0] == "\U{1F600}";
    assert r[1] in s && r[1] != r[0];
  }


  /** `s.includes(t)`. */
  predicate Contains(s: string, t: string)
    decreases |s|
  {
    StartsWith(s, t) || (s != [] && Contains(s[1..], t))
  }

  /** The characters `encodeURIComponent` leaves as they are. */
  predicate IsUriUnreserved(c: char) {
    IsAsciiLetter(c) || IsDigit(c) || c in "-_.!~*'()"
  }

  function HexDigit(d: nat): (c: char)
    requires d < 16
    ensures IsDigit(c) || 'A' <= c <= 'F'
  {
    if d < 10 then DigitChar(d) else ('A' as int + d - 10) as char
  }

  /** The UTF-8 encoding of one code point. */
  function Utf8(c: char): (bytes: seq<nat>)
    ensures 1 <= |bytes| <= 4
    ensures forall i :: 0 <= i < |bytes| ==> bytes[i] < 256
  {
    var n := c as int;
    if n < 0x80 then [n]
    else if n < 0x800 then [0xC0 + n / 64, 0x80 + n % 64]
    else if n < 0x10000 then [0xE0 + n / 4096, 0x80 + (n / 64) % 64, 0x80 + n % 64]
    else [0xF0 + n / 262144, 0x80 + (n / 4096) % 64, 0x80 + (n / 64) % 64, 0x80 + n % 64]
  }

  /** Each byte as "%" and two upper-case hexadecimal digits. */
  function PercentBytes(bytes: seq<nat>): (r: string)
    requires forall i :: 0 <= i < |bytes| ==> bytes[i] < 256
    ensures |r| == 3 * |bytes|
    ensures forall i :: 0 <= i < |r| ==> r[i] == '%' || IsDigit(r[i]) || 'A' <= r[i] <= 'F'
  {
    if bytes == [] then ""
    else ['%', HexDigit(bytes[0] / 16), HexDigit(bytes[0] % 16)] + PercentBytes(bytes[1..])
  }

  /**
   * `encodeURIComponent(s)`: unreserved characters are kept, every other one becomes its
   * UTF-8 bytes percent-encoded. (A `char` is a Unicode scalar value, so the lone-surrogate
   * error cannot arise.)
   */
  function EncodeUriComponent(s: string): (r: string)
    ensures forall i :: 0 <= i < |r| ==> IsUriUnreserved(r[i]) || r[i] == '%' || 'A' <= r[i] <= 'F'
    ensures |r| >= |s|
  {
    if s == [] then ""
    else (if IsUriUnreserved(s[0]) then [s[0]] else PercentBytes(Utf8(s[0]))) + EncodeUriComponent(s[1..])
  }

  /** A string of unreserved characters is its own encoding. */
  lemma {:induction false} EncodeUnreserved(s: string)
    requires forall i :: 0 <= i < |s| ==> IsUriUnreserved(s[i])
    ensures EncodeUriComponent(s) == s
  {
    if s != [] {
      EncodeUnreserved(s[1..]);
    }
  }

  /** Encoding distributes over concatenation: each character is encoded on its own. */
  lemma {:induction false} EncodeConcat(a: string, b: string)
    ensures EncodeUriComponent(a + b) == EncodeUriComponent(a) + EncodeUriComponent(b)
  {
    if a == [] {
      assert a + b == b;
    } else {
      assert (a + b)[0] == a[0] && (a + b)[1..] == a[1..] + b;
      EncodeConcat(a[1..], b);
    }
  }

  import opened Wrappers
}
