/** Python's `sep.join`, `str.split`, `str.replace` for a one-character separator, and decimal numerals. */
module Text {
  import opened Wrappers

  function Join(parts: seq<string>, sep: char): string {
    if |parts| == 0 then ""
    else if |parts| == 1 then parts[0]
    else parts[0] + [sep] + Join(parts[1..], sep)
  }

  function Split(s: string, sep: char): (parts: seq<string>)
    ensures |parts| >= 1
  {
    if s == "" then [""]
    else
      var rest := Split(s[1..], sep);
      if s[0] == sep then [""] + rest else [[s[0]] + rest[0]] + rest[1..]
  }

  lemma {:induction false} SplitPartsFree(s: string, sep: char)
    ensures forall p :: p in Split(s, sep) ==> sep !in p
  {
    if s != "" {
      SplitPartsFree(s[1..], sep);
    }
  }

  lemma {:induction false} SplitFree(s: string, sep: char)
    requires sep !in s
    ensures Split(s, sep) == [s]
  {
    if s != "" {
      SplitFree(s[1..], sep);
      assert [s[0]] + s[1..] == s;
    }
  }

  lemma {:induction false} SplitConcat(a: string, b: string, sep: char)
    ensures Split(a + [sep] + b, sep) == Split(a, sep) + Split(b, sep)
  {
    var whole := a + [sep] + b;
    if a == "" {
      assert whole[1..] == b;
    } else {
      assert whole[0] == a[0] && whole[1..] == a[1..] + [sep] + b;
      SplitConcat(a[1..], b, sep);
      SplitHead(a[0], sep, Split(a[1..], sep), Split(b, sep));
    }
  }

  lemma SplitHead(c: char, sep: char, left: seq<string>, right: seq<string>)
    requires |left| >= 1
    ensures (left + right)[0] == left[0] && (left + right)[1..] == left[1..] + right
    ensures [""] + (left + right) == ([""] + left) + right
    ensures [[c] + left[0]] + (left[1..] + right) == ([[c] + left[0]] + left[1..]) + right
  {
  }

  /** Splitting undoes joining exactly when no part contains the separator. */
  lemma {:induction false} SplitJoin(parts: seq<string>, sep: char)
    requires |parts| >= 1
    ensures Split(Join(parts, sep), sep) == parts <==> forall p :: p in parts ==> sep !in p
  {
    if forall p :: p in parts ==> sep !in p {
      SplitJoinFree(parts, sep);
    } else {
      var p :| p in parts && sep in p;
      SplitPartsFree(Join(parts, sep), sep);
    }
  }

  lemma {:induction false} SplitJoinFree(parts: seq<string>, sep: char)
    requires |parts| >= 1
    requires forall p :: p in parts ==> sep !in p
    ensures Split(Join(parts, sep), sep) == parts
  {
    if |parts| > 1 {
      SplitJoinFree(parts[1..], sep);
      SplitConcat(parts[0], Join(parts[1..], sep), sep);
      SplitFree(parts[0], sep);
    } else {
      SplitFree(parts[0], sep);
    }
  }

  lemma {:induction false} JoinSnoc(parts: seq<string>, last: string, sep: char)
    requires |parts| >= 1
    ensures Join(parts + [last], sep) == Join(parts, sep) + [sep] + last
  {
    assert (parts + [last])[1..] == parts[1..] + [last];
    if |parts| > 1 {
      JoinSnoc(parts[1..], last, sep);
    }
  }

  /** `s.replace(c, with)` for one-character strings. */
  function Replace(s: string, c: char, with: char): (r: string)
    ensures |r| == |s|
    ensures c in r <==> c == with && c in s
    ensures c !in s ==> r == s
  {
    if s == "" then ""
    else [if s[0] == c then with else s[0]] + Replace(s[1..], c, with)
  }

  lemma {:induction false} ReplaceAt(s: string, c: char, with: char)
    ensures forall i :: 0 <= i < |s| ==> Replace(s, c, with)[i] == if s[i] == c then with else s[i]
  {
    if s != "" {
      ReplaceAt(s[1..], c, with);
    }
  }

  /** `s.replace(c, "")`. */
  function Remove(s: string, c: char): string {
    if s == "" then ""
    else (if s[0] == c then "" else [s[0]]) + Remove(s[1..], c)
  }

  predicate IsDigit(c: char) { '0' <= c <= '9' }

  function DigitValue(c: char): nat
    requires IsDigit(c)
  {
    c as int - '0' as int
  }

  predicate IsNumeral(s: string) {
    |s| > 0 && forall i :: 0 <= i < |s| ==> IsDigit(s[i])
  }

  function Digit(d: nat): (c: char)
    requires d < 10
    ensures IsDigit(c) && DigitValue(c) == d
  {
    '0' + d as char
  }

  function Numeral(n: nat): (s: string)
    ensures IsNumeral(s)
  {
    if n < 10 then [Digit(n)] else Numeral(n / 10) + [Digit(n % 10)]
  }

  /** `str(n)` of a Python integer. */
  function IntText(n: int): string {
    if n < 0 then "-" + Numeral(-n) else Numeral(n)
  }

  function NumeralValue(s: string): nat
    requires forall i :: 0 <= i < |s| ==> IsDigit(s[i])
  {
    if s == "" then 0
    else NumeralValue(s[..|s| - 1]) * 10 + DigitValue(s[|s| - 1])
  }

  /** `1*DIGIT`. */
  function ParseNat(s: string): Option<nat> {
    if IsNumeral(s) then Some(NumeralValue(s)) else None
  }

  /** `["-"] 1*DIGIT`. */
  function ParseInt(s: string): Option<int> {
    if |s| > 0 && s[0] == '-' then
      if IsNumeral(s[1..]) then
        var magnitude: int := NumeralValue(s[1..]);
        Some(-magnitude)
      else None
    else if IsNumeral(s) then Some(NumeralValue(s))
    else None
  }

  lemma {:induction false} NumeralRoundTrip(n: nat)
    ensures ParseNat(Numeral(n)) == Some(n)
  {
    if n >= 10 {
      NumeralRoundTrip(n / 10);
      assert Numeral(n)[..|Numeral(n)| - 1] == Numeral(n / 10);
      assert NumeralValue(Numeral(n)) == NumeralValue(Numeral(n / 10)) * 10 + n % 10;
    }
  }

  lemma {:induction false} IntRoundTrip(n: int)
    ensures ParseInt(IntText(n)) == Some(n)
    ensures n >= 0 ==> ParseNat(IntText(n)) == Some(n)
    ensures forall c :: c in IntText(n) ==> c == '-' || IsDigit(c)
  {
    if n < 0 {
      NumeralRoundTrip(-n);
      assert IntText(n)[1..] == Numeral(-n);
    } else {
      NumeralRoundTrip(n);
    }
  }
}
