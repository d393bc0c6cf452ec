/**
 * String primitives shared by the pages: character classes, case folding,
 * substring search, trimming, splitting on a separator, and the decimal
 * conversions behind `String(n)`, `Date.now().toString()` and `parseInt`.
 *
 * Case folding is ASCII-only: `Lower` and `Upper` stand for JavaScript's
 * `toLowerCase`/`toUpperCase`, and every case-insensitive match in the model
 * goes through them.
 */
module Text {

  import opened Wrappers
  import opened Lists

  predicate IsDigit(c: char) {
    '0' <= c <= '9'
  }

  /** The ECMAScript WhiteSpace and LineTerminator characters: what `\s` matches and what `trim` and `parseInt` skip. */
  predicate IsWhitespace(c: char) {
    || c == '\t' || c == '\n' || c == '\U{B}' || c == '\U{C}' || c == '\r' || c == ' '
    || c == '\U{A0}' || c == '\U{1680}' || ('\U{2000}' <= c <= '\U{200A}')
    || c == '\U{2028}' || c == '\U{2029}' || c == '\U{202F}' || c == '\U{205F}'
    || c == '\U{3000}' || c == '\U{FEFF}'
  }

  function LowerChar(c: char): char {
    if 'A' <= c <= 'Z' then (c as int + 32) as char else c
  }

  function UpperChar(c: char): char {
    if 'a' <= c <= 'z' then (c as int - 32) as char else c
  }

  function Lower(s: string): (r: string)
    ensures |r| == |s|
    ensures forall i :: 0 <= i < |s| ==> r[i] == LowerChar(s[i])
  {
    seq(|s|, i requires 0 <= i < |s| => LowerChar(s[i]))
  }

  function Upper(s: string): (r: string)
    ensures |r| == |s|
    ensures forall i :: 0 <= i < |s| ==> r[i] == UpperChar(s[i])
  {
    seq(|s|, i requires 0 <= i < |s| => UpperChar(s[i]))
  }

  lemma LowerIdempotent(s: string)
    ensures Lower(Lower(s)) == Lower(s)
  {
  }

  predicate StartsWith(s: string, prefix: string) {
    |prefix| <= |s| && s[..|prefix|] == prefix
  }

  /** `s.includes(t)`. */
  predicate Contains(s: string, t: string)
    decreases |s|
  {
    StartsWith(s, t) || (s != [] && Contains(s[1..], t))
  }

  /** `s.toLowerCase().includes(term.toLowerCase())`. */
  predicate ContainsIgnoringCase(s: string, term: string) {
    Contains(Lower(s), Lower(term))
  }

  lemma ContainsEmpty(s: string)
    ensures Contains(s, "")
  {
    assert StartsWith(s, "");
  }

  lemma ContainsIgnoringCaseEmpty(s: string)
    ensures ContainsIgnoringCase(s, "")
  {
    ContainsEmpty(Lower(s));
  }

  /** Contains is the existence of an occurrence at some offset. */
  lemma {:induction false} ContainsAt(s: string, t: string, k: nat)
    requires k + |t| <= |s| && s[k..k + |t|] == t
    ensures Contains(s, t)
    decreases k
  {
    if k == 0 {
      assert s[..|t|] == s[0..|t|];
    } else {
      assert s[1..][k - 1..k - 1 + |t|] == s[k..k + |t|];
      ContainsAt(s[1..], t, k - 1);
    }
  }

  lemma ContainsSelf(s: string)
    ensures Contains(s, s)
  {
    assert s[..|s|] == s;
  }

  /** Characters that are not whitespace, in order (`s.replace(/\s/g, "")`). */
  function RemoveWhitespace(s: string): (r: string)
    ensures |r| <= |s|
    ensures forall c :: c in r ==> !IsWhitespace(c) && c in s
  {
    if s == [] then [] else if IsWhitespace(s[0]) then RemoveWhitespace(s[1..]) else [s[0]] + RemoveWhitespace(s[1..])
  }

  lemma {:induction false} RemoveWhitespaceConcat(a: string, b: string)
    ensures RemoveWhitespace(a + b) == RemoveWhitespace(a) + RemoveWhitespace(b)
    decreases |a|
  {
    if a == [] {
      assert a + b == b;
    } else {
      assert (a + b)[1..] == a[1..] + b;
      RemoveWhitespaceConcat(a[1..], b);
    }
  }

  lemma {:induction false} RemoveWhitespaceOfClean(s: string)
    requires forall c :: c in s ==> !IsWhitespace(c)
    ensures RemoveWhitespace(s) == s
    decreases |s|
  {
    if s != [] {
      RemoveWhitespaceOfClean(s[1..]);
    }
  }

  /** The digit characters, in order (`s.replace(/\D/g, "")`). */
  function KeepDigits(s: string): (r: string)
    ensures |r| <= |s|
    ensures forall c :: c in r ==> IsDigit(c)
  {
    if s == [] then [] else if IsDigit(s[0]) then [s[0]] + KeepDigits(s[1..]) else KeepDigits(s[1..])
  }

  lemma {:induction false} KeepDigitsOfDigits(s: string)
    requires forall c :: c in s ==> IsDigit(c)
    ensures KeepDigits(s) == s
    decreases |s|
  {
    if s != [] {
      KeepDigitsOfDigits(s[1..]);
    }
  }

  lemma {:induction false} KeepDigitsConcat(a: string, b: string)
    ensures KeepDigits(a + b) == KeepDigits(a) + KeepDigits(b)
    decreases |a|
  {
    if a == [] {
      assert a + b == b;
    } else {
      assert (a + b)[1..] == a[1..] + b;
      KeepDigitsConcat(a[1..], b);
    }
  }

  function TrimStart(s: string): (r: string)
    ensures |r| <= |s| && r == s[|s| - |r|..]
    ensures r != [] ==> !IsWhitespace(r[0])
    ensures forall i :: 0 <= i < |s| - |r| ==> IsWhitespace(s[i])
  {
    if s != [] && IsWhitespace(s[0]) then
      var r := TrimStart(s[1..]);
      assert forall i :: 1 <= i < |s| ==> s[i] == s[1..][i - 1];
      assert s[1..][|s[1..]| - |r|..] == s[|s| - |r|..];
      r
    else s
  }

  /** A string that starts with something other than whitespace has nothing to trim in front. */
  lemma TrimStartOfNonBlank(s: string)
    requires s != [] && !IsWhitespace(s[0])
    ensures TrimStart(s) == s
  {
  }

  function TrimEnd(s: string): (r: string)
    ensures |r| <= |s| && r == s[..|r|]
    ensures r != [] ==> !IsWhitespace(r[|r| - 1])
    ensures forall i :: |r| <= i < |s| ==> IsWhitespace(s[i])
  {
    if s != [] && IsWhitespace(s[|s| - 1]) then
      var r := TrimEnd(s[..|s| - 1]);
      assert forall i :: 0 <= i < |s| - 1 ==> s[i] == s[..|s| - 1][i];
      assert s[..|s| - 1][..|r|] == s[..|r|];
      r
    else s
  }

  /** `s.trim()`. */
  function Trim(s: string): string {
    TrimEnd(TrimStart(s))
  }

  /** `s.split(sep)` for a one-character separator: never empty, and "" gives [""]. */
  function Split(s: string, sep: char): (r: seq<string>)
    ensures |r| >= 1
    ensures forall w :: w in r ==> sep !in w
  {
    if s == [] then [""]
    else
      var rest := Split(s[1..], sep);
      if s[0] == sep then [""] + rest else [[s[0]] + rest[0]] + rest[1..]
  }

  /** A word that does not start with the separator heads the split. */
  lemma SplitHead(s: string, sep: char)
    requires s != [] && s[0] != sep
    ensures Split(s, sep)[0] != [] && Split(s, sep)[0][0] == s[0]
  {
  }

  /** A separator-free word followed by the separator splits off as the first part. */
  lemma {:induction false} SplitAfterWord(w: string, sep: char, t: string)
    requires sep !in w
    ensures Split(w + [sep] + t, sep) == [w] + Split(t, sep)
    decreases |w|
  {
    if w == [] {
      assert w + [sep] + t == [sep] + t;
      assert ([sep] + t)[1..] == t;
    } else {
      assert (w + [sep] + t)[1..] == w[1..] + [sep] + t;
      SplitAfterWord(w[1..], sep, t);
      assert [w[0]] + w[1..] == w;
    }
  }

  /** `.map((n) => n[0]).join("")`: the first character of every word, an empty word giving nothing. */
  function FirstLetters(words: seq<string>): (r: string)
    ensures |r| <= |words|
  {
    if words == [] then ""
    else (if words[0] == "" then "" else [words[0][0]]) + FirstLetters(words[1..])
  }

  /** `s.split(" ").map((n) => n[0]).join("").toUpperCase().slice(0, 2)`. */
  function WordInitials(s: string): (r: string)
    ensures |r| <= 2
  {
    var u := Upper(FirstLetters(Split(s, ' ')));
    if |u| <= 2 then u else u[..2]
  }

  /** Two words and anything after them: the initials are the two first letters, upper-cased. */
  lemma InitialsOfTwoWords(a: string, b: string, rest: string)
    requires a != [] && b != [] && ' ' !in a && b[0] != ' '
    ensures WordInitials(a + " " + b + rest) == [UpperChar(a[0]), UpperChar(b[0])]
  {
    SplitAfterWord(a, ' ', b + rest);
    assert a + " " + b + rest == a + [' '] + (b + rest);
    SplitHead(b + rest, ' ');
    var ws := Split(b + rest, ' ');
    assert Split(a + " " + b + rest, ' ') == [a] + ws;
    assert ([a] + ws)[1..] == ws;
    assert FirstLetters([a] + ws) == [a[0]] + FirstLetters(ws);
  }

  /** One word: its first letter, upper-cased. */
  lemma InitialsOfOneWord(a: string)
    requires a != [] && ' ' !in a
    ensures WordInitials(a) == [UpperChar(a[0])]
  {
    var ws := Split(a, ' ');
    SplitHead(a, ' ');
    SplitOfWord(a);
  }

  lemma {:induction false} SplitOfWord(a: string)
    requires ' ' !in a
    ensures Split(a, ' ') == [a]
    decreases |a|
  {
    if a != [] {
      SplitOfWord(a[1..]);
      assert [a[0]] + a[1..] == a;
    }
  }

  function DigitChar(d: nat): char
    requires d < 10
  {
    ('0' as int + d) as char
  }

  /** `String(n)` for a non-negative integer. */
  function DecimalString(n: nat): (r: string)
    ensures |r| >= 1
    ensures forall c :: c in r ==> IsDigit(c)
    ensures n >= 10 ==> r[0] != '0'
  {
    if n < 10 then [DigitChar(n)] else DecimalString(n / 10) + [DigitChar(n % 10)]
  }

  /** `String(i)` for any integer. */
  function IntString(i: int): string {
    if i < 0 then "-" + DecimalString(-i) else DecimalString(i)
  }

  /** `s.slice(-n)`: the last n characters, or all of them when there are fewer. */
  function LastN(s: string, n: nat): (r: string)
    ensures |r| == if |s| < n then |s| else n
    ensures r == s[|s| - |r|..]
  {
    if |s| <= n then s else s[|s| - n..]
  }

  /** `String(n).padStart(2, "0")`. */
  function Pad2(n: nat): string {
    var d := DecimalString(n);
    if |d| < 2 then "0" + d else d
  }

  /** Below 100 the padded string is exactly the tens digit and the units digit. */
  lemma Pad2Digits(n: nat)
    requires n < 100
    ensures Pad2(n) == [DigitChar(n / 10), DigitChar(n % 10)]
  {
    if n < 10 {
      assert DigitChar(0) == '0';
    } else {
      assert DecimalString(n / 10) == [DigitChar(n / 10)];
    }
  }

  // ---- parseInt ---------------------------------------------------------

  function DigitValue(c: char, radix: nat): Option<nat> {
    if '0' <= c <= '9' && (c as int - '0' as int) < radix then Some(c as int - '0' as int)
    else if radix == 16 && 'a' <= c <= 'f' then Some(c as int - 'a' as int + 10)
    else if radix == 16 && 'A' <= c <= 'F' then Some(c as int - 'A' as int + 10)
    else None
  }

  /** The longest prefix of s made of radix digits. */
  function DigitRun(s: string, radix: nat): (r: string)
    ensures |r| <= |s| && r == s[..|r|]
    ensures forall c :: c in r ==> DigitValue(c, radix).Some?
    ensures |r| < |s| ==> DigitValue(s[|r|], radix).None?
  {
    if s != [] && DigitValue(s[0], radix).Some? then [s[0]] + DigitRun(s[1..], radix) else []
  }

  /** The value of a run of radix digits, most significant first. */
  function RunValue(s: string, radix: nat): nat {
    if s == [] then 0 else RunValue(s[..|s| - 1], radix) * radix + DigitOf(s[|s| - 1], radix)
  }

  /** The value of a digit character; only ever applied to digits of the radix. */
  function DigitOf(c: char, radix: nat): nat {
    match DigitValue(c, radix)
    case Some(v) => v
    case None => 0
  }

  /**
   * `parseInt(s)` with no radix: skip leading whitespace, read a sign, switch to
   * base 16 after "0x"/"0X", then read the longest digit run; None stands for NaN.
   */
  function ParseInt(s: string): Option<int> {
    ParseSigned(TrimStart(s))
  }

  /** `parseInt` after the leading whitespace: an optional sign, then the magnitude. */
  function ParseSigned(t: string): Option<int> {
    var negative := t != [] && t[0] == '-';
    var u := if t != [] && (t[0] == '-' || t[0] == '+') then t[1..] else t;
    match ParseMagnitude(u)
    case None => None
    case Some(v) =>
      var w: int := v;
      Some(if negative then -w else w)
  }

  /** The unsigned part of `parseInt`: base 16 after "0x"/"0X", then the longest digit run. */
  function ParseMagnitude(u: string): Option<nat> {
    var hex := |u| >= 2 && u[0] == '0' && (u[1] == 'x' || u[1] == 'X');
    var radix := if hex then 16 else 10;
    var body := if hex then u[2..] else u;
    var run := DigitRun(body, radix);
    if run == [] then None else Some(RunValue(run, radix))
  }

  /** `parseInt(s) || 0`: NaN and zero both become 0. */
  function ParseIntOrZero(s: string): int {
    match ParseInt(s)
    case None => 0
    case Some(v) => v
  }

  lemma {:induction false} DigitRunOfDigits(s: string)
    requires forall c :: c in s ==> IsDigit(c)
    ensures DigitRun(s, 10) == s
    decreases |s|
  {
    if s != [] {
      assert s[0] in s;
      DigitRunOfDigits(s[1..]);
    }
  }

  lemma {:induction false} DecimalValue(n: nat)
    ensures RunValue(DecimalString(n), 10) == n
  {
    var d := DecimalString(n);
    if n >= 10 {
      DecimalValue(n / 10);
      assert d[..|d| - 1] == DecimalString(n / 10);
    }
  }

  /** `parseInt` is NaN for the empty string and for one that starts with no sign, digit or blank. */
  lemma {:induction false} ParseIntNaN(s: string)
    requires s == [] || (!IsWhitespace(s[0]) && !IsDigit(s[0]) && s[0] != '-' && s[0] != '+')
    ensures ParseInt(s) == None
  {
    if s == [] {
      ParseIntOfEmpty();
    } else {
      ParseIntOfWord(s);
    }
  }

  lemma {:induction false} ParseIntOfEmpty()
    ensures ParseInt("") == None
  {
    assert TrimStart("") == "";
    assert DigitRun("", 10) == [];
  }

  lemma {:induction false} ParseIntOfWord(s: string)
    requires s != [] && !IsWhitespace(s[0]) && !IsDigit(s[0]) && s[0] != '-' && s[0] != '+'
    ensures ParseInt(s) == None
  {
    TrimStartOfNonBlank(s);
    assert DigitValue(s[0], 10).None?;
    assert DigitRun(s, 10) == [];
  }

  /** `parseInt` of an unsigned magnitude, with or without a minus sign in front. */
  lemma ParseIntSigned(d: string, m: nat)
    requires d != [] && IsDigit(d[0]) && ParseMagnitude(d) == Some(m)
    ensures ParseInt(d) == Some(m)
    ensures ParseInt("-" + d) == Some(-(m as int))
  {
    TrimStartOfNonBlank(d);
    assert ParseSigned(d) == Some(m);
    var s := "-" + d;
    assert s[0] == '-' && s[1..] == d;
    TrimStartOfNonBlank(s);
    assert ParseSigned(s) == Some(-(m as int));
  }

  /** 10 to the power k. */
  function Pow10(k: nat): (r: nat)
    ensures r >= 1
    ensures k >= 1 ==> r >= 10
  {
    if k == 0 then 1 else 10 * Pow10(k - 1)
  }

  /** Division with remainder is unique: n = m * a + b with b < m makes b the remainder. */
  lemma {:induction false} ModUnique(n: nat, m: nat, a: nat, b: nat)
    requires m >= 1 && b < m && n == m * a + b
    ensures n % m == b
  {
    var a' := n / m;
    var b' := n % m;
    assert m * a + b == m * a' + b';
    if a < a' {
      assert m * a' >= m * (a + 1) by { MultiplyMonotone(m, a + 1, a'); }
    } else if a > a' {
      assert m * a >= m * (a' + 1) by { MultiplyMonotone(m, a' + 1, a); }
    }
  }

  /** Adding the modulus does not change the remainder. */
  lemma {:induction false} ModShift(n: nat, m: nat)
    requires m >= 1
    ensures (n + m) % m == n % m
  {
    var a := n / m;
    assert m * (a + 1) == m * a + m;
    ModUnique(n + m, m, a + 1, n % m);
  }

  lemma {:induction false} MultiplyMonotone(m: nat, x: nat, y: nat)
    requires x <= y
    ensures m * x <= m * y
  {
  }

  lemma {:induction false} Pow10Monotone(i: nat, j: nat)
    requires i <= j
    ensures Pow10(i) <= Pow10(j)
    decreases j
  {
    if i < j {
      Pow10Monotone(i, j - 1);
    }
  }

  /** Appending one digit multiplies the value so far by the radix and adds the digit. */
  lemma {:induction false} RunValueSnoc(x: string, c: char)
    ensures RunValue(x + [c], 10) == RunValue(x, 10) * 10 + DigitOf(c, 10)
  {
    assert (x + [c])[..|x|] == x;
  }

  /** The value of a + b is the value of a shifted left by |b| digits, plus the value of b. */
  lemma {:induction false} RunValueAppend(a: string, b: string)
    ensures RunValue(a + b, 10) == RunValue(a, 10) * Pow10(|b|) + RunValue(b, 10)
    decreases |b|
  {
    if b == [] {
      assert a + b == a;
    } else {
      var b', c := b[..|b| - 1], b[|b| - 1];
      assert b == b' + [c];
      ConcatAssoc(a, b', [c]);
      RunValueSnoc(a + b', c);
      RunValueSnoc(b', c);
      RunValueAppend(a, b');
      ShiftByDigit(RunValue(a, 10), Pow10(|b'|), RunValue(b', 10), DigitOf(c, 10));
    }
  }

  lemma {:induction false} ShiftByDigit(x: nat, p: nat, y: nat, d: nat)
    ensures (x * p + y) * 10 + d == x * (10 * p) + (y * 10 + d)
  {
  }

  /** A run of k decimal digits is worth less than 10^k. */
  lemma {:induction false} RunValueBound(t: string)
    requires forall c :: c in t ==> IsDigit(c)
    ensures RunValue(t, 10) < Pow10(|t|)
    decreases |t|
  {
    if t != [] {
      var t', c := t[..|t| - 1], t[|t| - 1];
      assert c in t;
      assert forall x :: x in t' ==> x in t;
      RunValueBound(t');
      assert DigitOf(c, 10) <= 9;
    }
  }

  /** The last k characters of `String(n)`, as `slice(-k)` takes them, are worth n mod 10^k. */
  lemma {:induction false} LastDigitsValue(n: nat, k: nat)
    ensures RunValue(LastN(DecimalString(n), k), 10) == n % Pow10(k)
  {
    var d := DecimalString(n);
    var tail := LastN(d, k);
    DecimalSplit(n, k);
    if |tail| < k {
      Pow10Monotone(|tail|, k);
    }
    ModOfSplit(n, Pow10(|tail|), Pow10(k), RunValue(d[..|d| - |tail|], 10), RunValue(tail, 10));
  }

  /** `String(n)` cut before its last k characters: n is the front's value shifted past the back, plus the back's. */
  lemma {:induction false} DecimalSplit(n: nat, k: nat)
    ensures var d := DecimalString(n); var tail := LastN(d, k);
      && n == RunValue(d[..|d| - |tail|], 10) * Pow10(|tail|) + RunValue(tail, 10)
      && RunValue(tail, 10) < Pow10(|tail|)
      && (|tail| < k ==> d[..|d| - |tail|] == [])
  {
    var d := DecimalString(n);
    var tail := LastN(d, k);
    var head := d[..|d| - |tail|];
    assert d == head + tail;
    DecimalValue(n);
    RunValueAppend(head, tail);
    assert forall c :: c in tail ==> c in d;
    RunValueBound(tail);
  }

  /** When n = a * p + b with b < p, and either p is q or a is zero, b is n mod q. */
  lemma {:induction false} ModOfSplit(n: nat, p: nat, q: nat, a: nat, b: nat)
    requires 1 <= p <= q && b < p && n == a * p + b
    requires p == q || a == 0
    ensures n % q == b
  {
    ModUnique(n, q, a, b);
  }

  /** Two digit strings of one length with one value are the same string. */
  lemma {:induction false} RunValueInjective(x: string, y: string)
    requires |x| == |y|
    requires forall c :: c in x ==> IsDigit(c)
    requires forall c :: c in y ==> IsDigit(c)
    requires RunValue(x, 10) == RunValue(y, 10)
    ensures x == y
    decreases |x|
  {
    if x != [] {
      var x', y' := x[..|x| - 1], y[..|y| - 1];
      var cx, cy := x[|x| - 1], y[|y| - 1];
      assert cx in x && cy in y;
      assert forall c :: c in x' ==> c in x;
      assert forall c :: c in y' ==> c in y;
      var dx, dy := DigitOf(cx, 10), DigitOf(cy, 10);
      assert dx < 10 && dy < 10;
      assert RunValue(x', 10) * 10 + dx == RunValue(y', 10) * 10 + dy;
      assert RunValue(x', 10) == RunValue(y', 10) && dx == dy;
      RunValueInjective(x', y');
      assert x == x' + [cx] && y == y' + [cy];
    }
  }

  /** A non-empty string of digits reads back under `parseInt` as its value. */
  lemma {:induction false} ParseIntOfDigits(t: string)
    requires t != [] && forall c :: c in t ==> IsDigit(c)
    ensures ParseInt(t) == Some(RunValue(t, 10))
  {
    DigitRunOfDigits(t);
    assert t[0] in t;
    if |t| >= 2 {
      assert t[1] in t;
    }
    assert ParseMagnitude(t) == Some(RunValue(t, 10));
    ParseIntSigned(t, RunValue(t, 10));
  }

  /** The decimal form of n reads back as n. */
  lemma MagnitudeOfDecimal(n: nat)
    ensures ParseMagnitude(DecimalString(n)) == Some(n)
    ensures IsDigit(DecimalString(n)[0])
  {
    var d := DecimalString(n);
    DecimalValue(n);
    DigitRunOfDigits(d);
    assert d[0] in d;
    if |d| >= 2 {
      assert d[1] in d;
    }
  }

  /** The digit run stops where the digits do. */
  lemma {:induction false} DigitRunStops(d: string, rest: string)
    requires forall c :: c in d ==> IsDigit(c)
    requires rest == [] || !IsDigit(rest[0])
    ensures DigitRun(d + rest, 10) == d
    decreases |d|
  {
    if d != [] {
      assert d[0] in d;
      assert (d + rest)[1..] == d[1..] + rest;
      assert forall c :: c in d[1..] ==> c in d;
      DigitRunStops(d[1..], rest);
      assert d == [d[0]] + d[1..];
    }
  }

  /**
   * `parseInt(String(i) + rest)` is i when rest starts with neither a digit nor
   * an "x" (which after a lone "0" would switch to base 16).
   */
  lemma {:induction false} ParseIntLeading(i: int, rest: string)
    requires rest == [] || (!IsDigit(rest[0]) && rest[0] != 'x' && rest[0] != 'X')
    ensures ParseInt(IntString(i) + rest) == Some(i)
  {
    var n: nat := if i < 0 then -i else i;
    var d := DecimalString(n);
    MagnitudeLeading(n, rest);
    ParseIntSigned(d + rest, n);
    if i < 0 {
      assert IntString(i) == "-" + d;
      ConcatAssoc("-", d, rest);
    }
  }

  /** The unsigned reading of `String(n) + rest` is n, under the same condition on rest. */
  lemma {:induction false} MagnitudeLeading(n: nat, rest: string)
    requires rest == [] || (!IsDigit(rest[0]) && rest[0] != 'x' && rest[0] != 'X')
    ensures var t := DecimalString(n) + rest; IsDigit(t[0]) && ParseMagnitude(t) == Some(n)
  {
    var d := DecimalString(n);
    DecimalValue(n);
    DigitRunStops(d, rest);
    var t := d + rest;
    assert d[0] in d && t[0] == d[0];
    if |d| >= 2 {
      assert d[1] in d && t[1] == d[1];
    } else if |t| >= 2 {
      assert t[1] == rest[0];
    }
  }

  /** Reading back `String(i)` with `parseInt` gives i. */
  lemma ParseIntString(i: int)
    ensures ParseInt(IntString(i)) == Some(i)
    ensures ParseIntOrZero(IntString(i)) == i
  {
    var n: nat := if i < 0 then -i else i;
    MagnitudeOfDecimal(n);
    ParseIntSigned(DecimalString(n), n);
  }
}
