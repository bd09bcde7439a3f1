/** Python's string primitives as the core uses them: `str.isspace`,
    `str.split()`, `str.strip()`, `str.splitlines()`, `file.readlines()`,
    `int(str)`, `startswith`/`endswith` and the ordering `sorted` uses on
    file names. */
module Text {
  import opened Wrappers

  /** `str.isspace` for one character (the Unicode whitespace set Python uses). */
  predicate IsSpace(c: char) {
    var n := c as int;
    (9 <= n <= 13) || (28 <= n <= 32) || n == 0x85 || n == 0xA0 || n == 0x1680
    || (0x2000 <= n <= 0x200A) || n == 0x2028 || n == 0x2029 || n == 0x202F
    || n == 0x205F || n == 0x3000
  }

  /** The characters at which `str.splitlines` breaks a line. */
  predicate IsLineBreak(c: char) {
    var n := c as int;
    (10 <= n <= 13) || (28 <= n <= 30) || n == 0x85 || n == 0x2028 || n == 0x2029
  }

  /** `not s.strip()`: the string is empty or whitespace only. */
  predicate IsBlank(s: string) {
    forall i :: 0 <= i < |s| ==> IsSpace(s[i])
  }

  /** What `str.split()` can produce: a non-empty run of non-whitespace. */
  predicate IsToken(t: string) {
    |t| > 0 && forall i :: 0 <= i < |t| ==> !IsSpace(t[i])
  }

  predicate NoLineBreak(s: string) {
    forall i :: 0 <= i < |s| ==> !IsLineBreak(s[i])
  }

  predicate StartsWith(s: string, prefix: string) {
    |prefix| <= |s| && s[..|prefix|] == prefix
  }

  predicate EndsWith(s: string, suffix: string) {
    |suffix| <= |s| && s[|s| - |suffix|..] == suffix
  }

  // ---------------------------------------------------------------------
  // str.split()

  /** Length of the leading run of non-whitespace characters. */
  function TokenEnd(s: string): (k: nat)
    ensures k <= |s|
    ensures forall i :: 0 <= i < k ==> !IsSpace(s[i])
    ensures k < |s| ==> IsSpace(s[k])
  {
    if s == [] || IsSpace(s[0]) then 0 else 1 + TokenEnd(s[1..])
  }

  /** `s.split()`: the maximal runs of non-whitespace, left to right. */
  function Tokens(s: string): (ts: seq<string>)
    ensures forall t :: t in ts ==> IsToken(t)
    decreases |s|
  {
    if s == [] then []
    else if IsSpace(s[0]) then Tokens(s[1..])
    else
      var k := TokenEnd(s);
      [s[..k]] + Tokens(s[k..])
  }

  /** `" ".join(ts)` */
  function JoinSpace(ts: seq<string>): string
  {
    if |ts| == 0 then ""
    else if |ts| == 1 then ts[0]
    else ts[0] + " " + JoinSpace(ts[1..])
  }

  /** A string is blank exactly when `split()` finds no token in it. */
  lemma {:induction false} BlankIffNoTokens(s: string)
    ensures IsBlank(s) <==> Tokens(s) == []
    decreases |s|
  {
    if s != [] && IsSpace(s[0]) {
      BlankIffNoTokens(s[1..]);
      assert IsBlank(s) <==> IsBlank(s[1..]) by {
        if IsBlank(s[1..]) {
          forall i | 0 <= i < |s| ensures IsSpace(s[i]) {
            if i > 0 { assert s[i] == s[1..][i - 1]; }
          }
        }
      }
    }
  }

  lemma {:induction false} TokenEndOfToken(t: string, rest: string)
    requires IsToken(t)
    requires rest == [] || IsSpace(rest[0])
    ensures TokenEnd(t + rest) == |t|
    decreases |t|
  {
    if |t| > 1 {
      assert (t + rest)[1..] == t[1..] + rest;
      TokenEndOfToken(t[1..], rest);
    } else {
      assert (t + rest)[1..] == rest;
    }
  }

  /** A token followed by whitespace (or nothing) is split off first. */
  lemma TokensCons(t: string, rest: string)
    requires IsToken(t)
    requires rest == [] || IsSpace(rest[0])
    ensures Tokens(t + rest) == [t] + Tokens(rest)
  {
    TokenEndOfToken(t, rest);
    var s := t + rest;
    assert s[..|t|] == t && s[|t|..] == rest;
  }

  /** Round trip: splitting tokens joined by single spaces gives the tokens back. */
  lemma {:induction false} TokensOfJoinSpace(ts: seq<string>)
    requires forall t :: t in ts ==> IsToken(t)
    ensures Tokens(JoinSpace(ts)) == ts
  {
    if |ts| == 1 {
      TokensCons(ts[0], "");
      assert ts[0] + "" == ts[0];
    } else if |ts| > 1 {
      var rest := JoinSpace(ts[1..]);
      TokensOfJoinSpace(ts[1..]);
      assert ts[0] + " " + rest == ts[0] + (" " + rest);
      TokensCons(ts[0], " " + rest);
      assert (" " + rest)[1..] == rest;
    }
  }

  lemma {:induction false} JoinSpaceNoLineBreak(ts: seq<string>)
    requires forall t :: t in ts ==> IsToken(t)
    ensures NoLineBreak(JoinSpace(ts))
  {
    if |ts| > 1 {
      JoinSpaceNoLineBreak(ts[1..]);
      var s := ts[0] + " " + JoinSpace(ts[1..]);
      forall i | 0 <= i < |s| ensures !IsLineBreak(s[i]) {
        assert ts[0] in ts;
        if i < |ts[0]| {
          assert s[i] == ts[0][i];
        } else if i == |ts[0]| {
          assert s[i] == ' ';
        } else {
          assert s[i] == JoinSpace(ts[1..])[i - |ts[0]| - 1];
        }
      }
    } else if |ts| == 1 {
      assert ts[0] in ts;
    }
  }

  // ---------------------------------------------------------------------
  // str.splitlines() and file.readlines()

  /** Length of the leading run without a `splitlines` break. */
  function LineEnd(s: string): (k: nat)
    ensures k <= |s|
    ensures forall i :: 0 <= i < k ==> !IsLineBreak(s[i])
    ensures k < |s| ==> IsLineBreak(s[k])
  {
    if s == [] || IsLineBreak(s[0]) then 0 else 1 + LineEnd(s[1..])
  }

  /** `s.splitlines()`: lines without their terminators; `\r\n` is one break,
      and a final terminator does not open an empty last line. */
  function SplitLines(s: string): (ls: seq<string>)
    ensures forall l :: l in ls ==> NoLineBreak(l)
    decreases |s|
  {
    if s == [] then []
    else
      var k := LineEnd(s);
      if k == |s| then [s]
      else
        var next := if s[k] == '\r' && k + 1 < |s| && s[k + 1] == '\n' then k + 2 else k + 1;
        [s[..k]] + SplitLines(s[next..])
  }

  lemma {:induction false} LineEndOfLine(l: string, rest: string)
    requires NoLineBreak(l)
    ensures LineEnd(l + "\n" + rest) == |l|
    decreases |l|
  {
    if l != [] {
      assert (l + "\n" + rest)[1..] == l[1..] + "\n" + rest;
      LineEndOfLine(l[1..], rest);
    }
  }

  /** A line ended by `\n` is split off first. */
  lemma SplitLinesCons(l: string, rest: string)
    requires NoLineBreak(l)
    ensures SplitLines(l + "\n" + rest) == [l] + SplitLines(rest)
  {
    LineEndOfLine(l, rest);
    var s := l + "\n" + rest;
    assert s[..|l|] == l && s[|l| + 1..] == rest;
  }

  /** Position of the first `\n` or `\r`, or the length. */
  function NewlineEnd(s: string): (k: nat)
    ensures k <= |s|
    ensures forall i :: 0 <= i < k ==> s[i] != '\n' && s[i] != '\r'
    ensures k < |s| ==> s[k] == '\n' || s[k] == '\r'
  {
    if s == [] || s[0] == '\n' || s[0] == '\r' then 0 else 1 + NewlineEnd(s[1..])
  }

  /** `f.readlines()` of a file opened in text mode: lines end at `\n`, `\r\n`
      or `\r`, each terminator is delivered as `\n`, and a last line without
      a terminator is kept as it is. */
  function ReadLines(s: string): (ls: seq<string>)
    ensures |ls| <= |s|
    ensures ls == [] <==> s == []
    ensures forall k :: 0 <= k < |ls| - 1 ==> ls[k] != [] && ls[k][|ls[k]| - 1] == '\n'
    decreases |s|
  {
    if s == [] then []
    else
      var k := NewlineEnd(s);
      if k == |s| then [s]
      else
        var next := if s[k] == '\r' && k + 1 < |s| && s[k + 1] == '\n' then k + 2 else k + 1;
        [s[..k] + "\n"] + ReadLines(s[next..])
  }

  /** Where no `\n` or `\r` occurs in `l`, the first terminator of
      `l + "\n" + rest` is the one after `l`. */
  lemma {:induction false} NewlineEndOfLine(l: string, rest: string)
    requires forall i :: 0 <= i < |l| ==> l[i] != '\n' && l[i] != '\r'
    ensures NewlineEnd(l + "\n" + rest) == |l|
    decreases |l|
  {
    if l != [] {
      assert (l + "\n" + rest)[1..] == l[1..] + "\n" + rest;
      NewlineEndOfLine(l[1..], rest);
    }
  }

  /** A line ended by `\n` is read first, with its terminator. */
  lemma ReadLinesCons(l: string, rest: string)
    requires forall i :: 0 <= i < |l| ==> l[i] != '\n' && l[i] != '\r'
    ensures ReadLines(l + "\n" + rest) == [l + "\n"] + ReadLines(rest)
  {
    NewlineEndOfLine(l, rest);
    var s := l + "\n" + rest;
    assert s[..|l|] == l && s[|l| + 1..] == rest;
  }

  /** Python's `xs[k:]` for an integer k (negative k counts from the end). */
  function SliceFrom<T>(xs: seq<T>, k: int): (r: seq<T>)
    ensures 0 <= k ==> r == xs[if k <= |xs| then k else |xs|..]
    ensures k < 0 ==> r == xs[if |xs| + k >= 0 then |xs| + k else 0..]
  {
    if k >= 0 then (if k <= |xs| then xs[k..] else [])
    else (if |xs| + k >= 0 then xs[|xs| + k..] else xs)
  }

  // ---------------------------------------------------------------------
  // str.strip()

  /** Where the leading whitespace of `s` ends. */
  function LeadEnd(s: string): (i: nat)
    ensures i <= |s|
    ensures forall k :: 0 <= k < i ==> IsSpace(s[k])
    ensures i < |s| ==> !IsSpace(s[i])
  {
    if s == [] || !IsSpace(s[0]) then 0 else 1 + LeadEnd(s[1..])
  }

  /** Where the trailing whitespace of `s` starts. */
  function TrailStart(s: string): (j: nat)
    ensures j <= |s|
    ensures forall k :: j <= k < |s| ==> IsSpace(s[k])
    ensures j > 0 ==> !IsSpace(s[j - 1])
  {
    if s == [] || !IsSpace(s[|s| - 1]) then |s| else TrailStart(s[..|s| - 1])
  }

  /** `s.strip()` */
  function Strip(s: string): (r: string)
    ensures |r| <= |s|
    ensures exists i, j :: 0 <= i <= j <= |s| && r == s[i..j] && IsBlank(s[..i]) && IsBlank(s[j..])
    ensures r == [] <==> IsBlank(s)
    ensures r != [] ==> !IsSpace(r[0]) && !IsSpace(r[|r| - 1])
  {
    var i := LeadEnd(s);
    if i == |s| then
      assert IsBlank(s[..i]) && IsBlank(s[i..]) && s[i..i] == [];
      []
    else
    var j := TrailStart(s);
    assert i < j;
    assert IsBlank(s[..i]) && IsBlank(s[j..]);
    s[i..j]
  }

  lemma StripOfToken(t: string)
    requires IsToken(t)
    ensures Strip(t) == t
  {
  }

  // ---------------------------------------------------------------------
  // int(str)

  predicate IsDigit(c: char) { '0' <= c <= '9' }

  function DigitOf(c: char): nat
    requires IsDigit(c)
  {
    c as int - '0' as int
  }

  predicate IsDigits(d: string) {
    |d| > 0 && forall i :: 0 <= i < |d| ==> IsDigit(d[i])
  }

  function DigitsValue(d: string): nat
    requires forall i :: 0 <= i < |d| ==> IsDigit(d[i])
  {
    if d == [] then 0
    else
      assert IsDigit(d[|d| - 1]);
      10 * DigitsValue(d[..|d| - 1]) + DigitOf(d[|d| - 1])
  }

  /** `int(s)` for decimal literals: surrounding whitespace is ignored and an
      optional `+` or `-` sign may precede the digits; anything else fails
      (`ValueError`). */
  function ParseInt(s: string): Option<int>
  {
    var t := Strip(s);
    if |t| > 0 && (t[0] == '-' || t[0] == '+') then
      if IsDigits(t[1..]) then
        Some(if t[0] == '-' then -(DigitsValue(t[1..]) as int) else DigitsValue(t[1..]))
      else None
    else if IsDigits(t) then Some(DigitsValue(t))
    else None
  }

  /** `str(n)` for a natural number. */
  function ShowNat(n: nat): (d: string)
    ensures IsDigits(d)
  {
    if n < 10 then [('0' as int + n) as char]
    else ShowNat(n / 10) + [('0' as int + n % 10) as char]
  }

  /** `str(n)` for an integer. */
  function ShowInt(n: int): string
  {
    if n < 0 then "-" + ShowNat(-n) else ShowNat(n)
  }

  lemma {:induction false} ShowNatValue(n: nat)
    ensures DigitsValue(ShowNat(n)) == n
  {
    if n >= 10 {
      var d := ShowNat(n);
      assert d[..|d| - 1] == ShowNat(n / 10);
      ShowNatValue(n / 10);
    }
  }

  /** Round trip: `int(str(n)) == n`. */
  lemma ParseShowInt(n: int)
    ensures ParseInt(ShowInt(n)) == Some(n)
  {
    var s := ShowInt(n);
    var d := if n < 0 then ShowNat(-n) else ShowNat(n);
    ShowNatValue(if n < 0 then -n else n);
    assert IsToken(s) by {
      forall i | 0 <= i < |s| ensures !IsSpace(s[i]) {
        if n < 0 && i > 0 { assert s[i] == d[i - 1]; }
      }
    }
    StripOfToken(s);
    if n < 0 {
      assert s[1..] == d;
    } else {
      assert IsDigit(s[0]);
    }
  }

  // ---------------------------------------------------------------------
  // Ordering of names, as `sorted` compares them

  /** Lexicographic order on code points, Python's `<=` on `str`. */
  predicate StrLe(a: string, b: string)
  {
    if a == [] then true
    else if b == [] then false
    else if a[0] != b[0] then a[0] < b[0]
    else StrLe(a[1..], b[1..])
  }

  lemma {:induction false} StrLeTotal(a: string, b: string)
    ensures StrLe(a, b) || StrLe(b, a)
  {
    if a != [] && b != [] && a[0] == b[0] {
      StrLeTotal(a[1..], b[1..]);
    }
  }

  predicate SortedNames(s: seq<string>) {
    forall i :: 0 <= i < |s| - 1 ==> StrLe(s[i], s[i + 1])
  }

  function InsertName(x: string, s: seq<string>): (r: seq<string>)
    requires SortedNames(s)
    ensures SortedNames(r)
    ensures multiset(r) == multiset(s) + multiset{x}
    ensures |r| > 0 && (r[0] == x || (|s| > 0 && r[0] == s[0]))
  {
    if s == [] || StrLe(x, s[0]) then [x] + s
    else
      StrLeTotal(x, s[0]);
      var rest := InsertName(x, s[1..]);
      assert s == [s[0]] + s[1..];
      [s[0]] + rest
  }

  /** `sorted(names)`: the same names in ascending order. */
  function SortNames(s: seq<string>): (r: seq<string>)
    ensures SortedNames(r)
    ensures multiset(r) == multiset(s)
  {
    if s == [] then []
    else
      assert s == s[..|s| - 1] + [s[|s| - 1]];
      InsertName(s[|s| - 1], SortNames(s[..|s| - 1]))
  }
}
