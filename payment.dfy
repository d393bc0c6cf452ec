/**
 * The payment form (components/pages/payment-page.tsx): the card-number,
 * expiry and CVC input formatters and the tax and total of the summary.
 */
module Payment {

  import opened Text
  import opened Lists

  /** The `price` of the fixed appointment shown on the page. */
  const AppointmentPrice := 80

  /** `.replace(/(\d{4})/g, "$1 ")`: every run of four digits found left to right gets a space after it. */
  function GroupDigits(s: string): string
    decreases |s|
  {
    if |s| >= 4 && IsDigit(s[0]) && IsDigit(s[1]) && IsDigit(s[2]) && IsDigit(s[3]) then
      s[..4] + " " + GroupDigits(s[4..])
    else if s == [] then []
    else [s[0]] + GroupDigits(s[1..])
  }

  /** The card-number field: whitespace removed, digits grouped by four, then trimmed. */
  function FormatCardNumber(s: string): string {
    Trim(GroupDigits(RemoveWhitespace(s)))
  }

  /** Digits in groups of four separated by single spaces: the reference shape of a formatted number. */
  function Chunks(d: string): string
    decreases |d|
  {
    if |d| <= 4 then d else d[..4] + " " + Chunks(d[4..])
  }

  /** The expiry field: digits only, and from two digits on "MM/" plus at most two more. */
  function FormatExpiry(s: string): (r: string)
    ensures var v := KeepDigits(s);
      if |v| < 2 then r == v
      else r == v[..2] + "/" + v[2..if |v| < 4 then |v| else 4]
    ensures |r| <= 5
    ensures forall i :: 0 <= i < |r| ==> (r[i] == '/' <==> i == 2)
    ensures forall i :: 0 <= i < |r| && i != 2 ==> IsDigit(r[i])
  {
    var value := KeepDigits(s);
    assert forall i :: 0 <= i < |value| ==> IsDigit(value[i]) by {
      forall i | 0 <= i < |value| ensures IsDigit(value[i]) {
        assert value[i] in value;
      }
    }
    if |value| >= 2 then value[..2] + "/" + value[2..if |value| < 4 then |value| else 4] else value
  }

  /** The CVC field: `.replace(/\D/g, "")`. */
  function FormatCvc(s: string): (r: string)
    ensures forall c :: c in r ==> IsDigit(c)
    ensures r == Filter(s, IsDigit)
  {
    KeepDigitsIsFilter(s);
    KeepDigits(s)
  }

  /** `Math.round(price * 0.19)`, rounding halves up, on exact integers. */
  function Tax(price: int): (t: int)
    ensures 100 * t - 50 <= 19 * price < 100 * t + 50
  {
    (19 * price + 50) / 100
  }

  function Total(price: int): (t: int)
    ensures t == price + Tax(price)
  {
    price + Tax(price)
  }

  // ---- lemmas --------------------------------------------------------------

  lemma {:induction false} KeepDigitsIsFilter(s: string)
    ensures KeepDigits(s) == Filter(s, IsDigit)
    decreases |s|
  {
    if s != [] {
      KeepDigitsIsFilter(s[1..]);
    }
  }

  lemma {:induction false} RemoveWhitespaceOfBlank(s: string)
    requires forall i :: 0 <= i < |s| ==> IsWhitespace(s[i])
    ensures RemoveWhitespace(s) == []
    decreases |s|
  {
    if s != [] {
      RemoveWhitespaceOfBlank(s[1..]);
    }
  }

  lemma {:induction false} RemoveWhitespaceOfTrimStart(s: string)
    ensures RemoveWhitespace(TrimStart(s)) == RemoveWhitespace(s)
    decreases |s|
  {
    if s != [] && IsWhitespace(s[0]) {
      RemoveWhitespaceOfTrimStart(s[1..]);
    }
  }

  lemma RemoveWhitespaceOfTrimEnd(s: string)
    ensures RemoveWhitespace(TrimEnd(s)) == RemoveWhitespace(s)
  {
    var b := TrimEnd(s);
    assert s == b + s[|b|..];
    RemoveWhitespaceConcat(b, s[|b|..]);
    RemoveWhitespaceOfBlank(s[|b|..]);
  }

  /** Trimming removes whitespace only. */
  lemma RemoveWhitespaceOfTrim(s: string)
    ensures RemoveWhitespace(Trim(s)) == RemoveWhitespace(s)
  {
    RemoveWhitespaceOfTrimStart(s);
    RemoveWhitespaceOfTrimEnd(TrimStart(s));
  }

  /** Grouping inserts spaces only. */
  lemma {:induction false} RemoveWhitespaceOfGroups(s: string)
    ensures RemoveWhitespace(GroupDigits(s)) == RemoveWhitespace(s)
    decreases |s|
  {
    if |s| >= 4 && IsDigit(s[0]) && IsDigit(s[1]) && IsDigit(s[2]) && IsDigit(s[3]) {
      var h, g := s[..4], GroupDigits(s[4..]);
      assert GroupDigits(s) == (h + " ") + g;
      RemoveWhitespaceOfGroups(s[4..]);
      RemoveWhitespaceConcat(h + " ", g);
      RemoveWhitespaceConcat(h, " ");
      assert RemoveWhitespace(" ") == [];
      assert RemoveWhitespace(h + " ") == RemoveWhitespace(h);
      assert s == h + s[4..];
      RemoveWhitespaceConcat(h, s[4..]);
    } else if s != [] {
      RemoveWhitespaceOfGroups(s[1..]);
      RemoveWhitespaceConcat([s[0]], GroupDigits(s[1..]));
      assert s == [s[0]] + s[1..];
      RemoveWhitespaceConcat([s[0]], s[1..]);
    }
  }

  /** Grouping only inserts spaces: nothing gets shorter, and every character is the input's or a space. */
  lemma {:induction false} GroupDigitsInsertsSpaces(s: string)
    ensures |s| <= |GroupDigits(s)|
    ensures forall c :: c in GroupDigits(s) ==> c in s || c == ' '
    decreases |s|
  {
    if |s| >= 4 && IsDigit(s[0]) && IsDigit(s[1]) && IsDigit(s[2]) && IsDigit(s[3]) {
      GroupDigitsInsertsSpaces(s[4..]);
      assert GroupDigits(s) == s[..4] + " " + GroupDigits(s[4..]);
      assert forall c :: c in s[..4] ==> c in s;
      assert forall c :: c in s[4..] ==> c in s;
    } else if s != [] {
      GroupDigitsInsertsSpaces(s[1..]);
      assert GroupDigits(s) == [s[0]] + GroupDigits(s[1..]);
      assert forall c :: c in s[1..] ==> c in s;
    }
  }

  /** Every character of a formatted number is a non-whitespace character of the input, or a separating space. */
  lemma {:induction false} CardNumberCharacters(s: string)
    ensures forall c :: c in FormatCardNumber(s) ==> (c in s && !IsWhitespace(c)) || c == ' '
  {
    var g := GroupDigits(RemoveWhitespace(s));
    GroupDigitsInsertsSpaces(RemoveWhitespace(s));
    var t := TrimStart(g);
    assert forall c :: c in t ==> c in g;
    assert forall c :: c in TrimEnd(t) ==> c in t;
  }

  lemma RemoveWhitespaceIdempotent(s: string)
    ensures RemoveWhitespace(RemoveWhitespace(s)) == RemoveWhitespace(s)
  {
    RemoveWhitespaceOfClean(RemoveWhitespace(s));
  }

  /** Taking the spaces back out of a formatted number gives the input without its whitespace. */
  lemma CardNumberKeepsCharacters(s: string)
    ensures RemoveWhitespace(FormatCardNumber(s)) == RemoveWhitespace(s)
  {
    RemoveWhitespaceOfTrim(GroupDigits(RemoveWhitespace(s)));
    RemoveWhitespaceOfGroups(RemoveWhitespace(s));
    RemoveWhitespaceIdempotent(s);
  }

  /** A formatted number starts and ends with something other than whitespace. */
  lemma CardNumberTrimmed(s: string)
    ensures var r := FormatCardNumber(s);
      r != [] ==> !IsWhitespace(r[0]) && !IsWhitespace(r[|r| - 1])
  {
    var a := TrimStart(GroupDigits(RemoveWhitespace(s)));
    var b := TrimEnd(a);
    if b != [] {
      assert b[0] == a[0];
    }
  }

  /** Formatting an already formatted number changes nothing. */
  lemma CardNumberIdempotent(s: string)
    ensures FormatCardNumber(FormatCardNumber(s)) == FormatCardNumber(s)
  {
    CardNumberKeepsCharacters(s);
  }

  /** The space grouping leaves after a digit-only input of length n. */
  function TrailingSpace(n: nat): string {
    if n > 0 && n % 4 == 0 then " " else ""
  }

  lemma TrailingSpaceStep(n: nat)
    requires n > 4
    ensures TrailingSpace(n) == TrailingSpace(n - 4)
  {
    assert (n - 4) % 4 == n % 4;
  }

  lemma TrailingSpaceShort(n: nat)
    requires n < 4
    ensures TrailingSpace(n) == ""
  {
    if n == 0 {
    } else if n == 1 {
      assert 1 % 4 == 1;
    } else if n == 2 {
      assert 2 % 4 == 2;
    } else {
      assert 3 % 4 == 3;
    }
  }

  /** The step of `GroupsOfDigits` for four leading digits. */
  lemma GroupsOfFour(d: string)
    requires |d| >= 4 && forall i :: 0 <= i < |d| ==> IsDigit(d[i])
    requires GroupDigits(d[4..]) == Chunks(d[4..]) + TrailingSpace(|d| - 4)
    ensures GroupDigits(d) == Chunks(d) + TrailingSpace(|d|)
  {
    if |d| == 4 {
      GroupsOfExactlyFour(d);
    } else {
      GroupsOfFourThenMore(d);
    }
  }

  lemma {:induction false} GroupsOfExactlyFour(d: string)
    requires |d| == 4 && forall i :: 0 <= i < |d| ==> IsDigit(d[i])
    ensures GroupDigits(d) == Chunks(d) + TrailingSpace(|d|)
  {
    assert IsDigit(d[0]) && IsDigit(d[1]) && IsDigit(d[2]) && IsDigit(d[3]);
    assert d[4..] == [] && d[..4] == d;
    assert GroupDigits(d[4..]) == [];
    assert TrailingSpace(4) == " " by { assert 4 % 4 == 0; }
    assert GroupDigits(d) == d + " ";
  }

  lemma {:induction false} GroupsOfFourThenMore(d: string)
    requires |d| > 4 && forall i :: 0 <= i < |d| ==> IsDigit(d[i])
    requires GroupDigits(d[4..]) == Chunks(d[4..]) + TrailingSpace(|d| - 4)
    ensures GroupDigits(d) == Chunks(d) + TrailingSpace(|d|)
  {
    assert IsDigit(d[0]) && IsDigit(d[1]) && IsDigit(d[2]) && IsDigit(d[3]);
    var x := d[..4] + " ";
    var c := Chunks(d[4..]);
    assert GroupDigits(d) == x + GroupDigits(d[4..]);
    TrailingSpaceStep(|d|);
    var t := TrailingSpace(|d|);
    assert GroupDigits(d[4..]) == c + t;
    ConcatAssoc(x, c, t);
    assert Chunks(d) == x + c;
  }

  /** The step of `GroupsOfDigits` for fewer than four digits. */
  lemma GroupsOfFew(d: string)
    requires 0 < |d| < 4 && forall i :: 0 <= i < |d| ==> IsDigit(d[i])
    requires GroupDigits(d[1..]) == d[1..]
    ensures GroupDigits(d) == Chunks(d) + TrailingSpace(|d|)
  {
    assert GroupDigits(d) == [d[0]] + GroupDigits(d[1..]);
    assert d == [d[0]] + d[1..];
    assert Chunks(d) == d;
    TrailingSpaceShort(|d|);
  }

  /** On digits, grouping adds a trailing space exactly when the length is a positive multiple of four. */
  lemma {:induction false} GroupsOfDigits(d: string)
    requires forall i :: 0 <= i < |d| ==> IsDigit(d[i])
    ensures GroupDigits(d) == Chunks(d) + TrailingSpace(|d|)
    decreases |d|
  {
    if |d| >= 4 {
      GroupsOfDigits(d[4..]);
      GroupsOfFour(d);
    } else if d != [] {
      GroupsOfDigits(d[1..]);
      TrailingSpaceShort(|d| - 1);
      assert Chunks(d[1..]) == d[1..];
      GroupsOfFew(d);
    }
  }

  lemma {:induction false} ChunksEnds(d: string)
    requires forall i :: 0 <= i < |d| ==> IsDigit(d[i])
    ensures var c := Chunks(d); c != [] ==> IsDigit(c[0]) && IsDigit(c[|c| - 1])
    ensures Chunks(d) == [] <==> d == []
    decreases |d|
  {
    if |d| > 4 {
      ChunksEnds(d[4..]);
    }
  }

  /** Trimming a string that starts and ends with something other than whitespace, maybe plus one space. */
  lemma TrimOfFramed(c: string, tail: string)
    requires c != [] ==> IsDigit(c[0]) && IsDigit(c[|c| - 1])
    requires tail == "" || (tail == " " && c != [])
    ensures Trim(c + tail) == c
  {
    if c == [] {
      assert c + tail == [];
    } else {
      var s := c + tail;
      assert s[0] == c[0] && !IsWhitespace(s[0]);
      assert TrimStart(s) == s;
      assert !IsWhitespace(c[|c| - 1]);
      assert TrimEnd(c) == c;
      if tail == " " {
        assert s[|s| - 1] == ' ';
        assert s[..|s| - 1] == c;
        assert TrimEnd(s) == TrimEnd(c);
      } else {
        assert s == c;
      }
    }
  }

  lemma DigitsAreClean(d: string)
    requires forall i :: 0 <= i < |d| ==> IsDigit(d[i])
    ensures forall c :: c in d ==> !IsWhitespace(c)
  {
    forall c | c in d ensures !IsWhitespace(c) {
      var i :| 0 <= i < |d| && d[i] == c;
      assert '0' <= c <= '9';
    }
  }

  /** A digit-only number comes out in groups of four separated by single spaces. */
  lemma CardNumberOfDigits(d: string)
    requires forall i :: 0 <= i < |d| ==> IsDigit(d[i])
    ensures FormatCardNumber(d) == Chunks(d)
  {
    DigitsAreClean(d);
    RemoveWhitespaceOfClean(d);
    assert RemoveWhitespace(d) == d;
    GroupsOfDigits(d);
    ChunksEnds(d);
    var tail := TrailingSpace(|d|);
    assert GroupDigits(d) == Chunks(d) + tail;
    TrimOfFramed(Chunks(d), tail);
    assert FormatCardNumber(d) == Trim(Chunks(d) + tail);
  }

  /** Formatting an already formatted expiry changes nothing. */
  lemma ExpiryIdempotent(s: string)
    ensures FormatExpiry(FormatExpiry(s)) == FormatExpiry(s)
  {
    var v := KeepDigits(s);
    var r := FormatExpiry(s);
    if |v| < 2 {
      KeepDigitsOfDigits(v);
    } else {
      var m := if |v| < 4 then |v| else 4;
      KeepDigitsConcat(v[..2] + "/", v[2..m]);
      KeepDigitsConcat(v[..2], "/");
      KeepDigitsOfDigits(v[..2]);
      KeepDigitsOfDigits(v[2..m]);
      assert KeepDigits(r) == v[..m];
    }
  }

  /** The formatted CVC of a formatted CVC is itself. */
  lemma CvcIdempotent(s: string)
    ensures FormatCvc(FormatCvc(s)) == FormatCvc(s)
  {
    KeepDigitsOfDigits(KeepDigits(s));
  }

  /** The summary for the fixed price: tax 15 and total 95. */
  lemma FixedPriceSummary()
    ensures Tax(AppointmentPrice) == 15 && Total(AppointmentPrice) == 95
  {
  }
}
