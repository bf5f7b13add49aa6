/** The string operations the screens perform: decimal rendering of whole numbers
    (`Date.now()` ids, month counts in messages) and `replace` with a one-character pattern. */
module Text {
  import opened Seqs

  function DigitChar(d: nat): (c: char)
    requires d < 10
    ensures '0' <= c <= '9'
  {
    "0123456789"[d]
  }

  function DigitValue(c: char): nat
  {
    if '0' <= c <= '9' then (c as int - '0' as int) as nat else 0
  }

  predicate IsDigits(s: string)
  {
    forall i :: 0 <= i < |s| ==> '0' <= s[i] <= '9'
  }

  /** The decimal digits of `n`, most significant first, with no leading zero
      (`n.toString()`, `${n}`). */
  function NatText(n: nat): (s: string)
    ensures 1 <= |s|
    ensures IsDigits(s)
    ensures |s| > 1 ==> s[0] != '0'
    decreases n
  {
    if n < 10 then [DigitChar(n)] else NatText(n / 10) + [DigitChar(n % 10)]
  }

  /** The number a string of decimal digits denotes. */
  function DigitsValue(s: string): nat
    decreases |s|
  {
    if s == [] then 0 else DigitsValue(s[..|s| - 1]) * 10 + DigitValue(s[|s| - 1])
  }

  /** Reading back the rendered digits gives the number: distinct numbers render to
      distinct texts. */
  lemma {:induction false} NatTextRoundTrip(n: nat)
    ensures DigitsValue(NatText(n)) == n
    decreases n
  {
    var s := NatText(n);
    if n < 10 {
      assert s[..|s| - 1] == [];
    } else {
      NatTextRoundTrip(n / 10);
      assert s[..|s| - 1] == NatText(n / 10);
    }
  }

  lemma NatTextInjective(m: nat, n: nat)
    requires NatText(m) == NatText(n)
    ensures m == n
  {
    NatTextRoundTrip(m);
    NatTextRoundTrip(n);
  }

  function IsChar(c: char): char -> bool
  {
    (x: char) => x == c
  }

  /** `s.replace(from, to)` with a one-character string pattern: only the FIRST
      occurrence of `from` is replaced. */
  function ReplaceFirst(s: string, from: char, to: char): (r: string)
    ensures |r| == |s|
    ensures from !in s ==> r == s
    ensures forall i :: 0 <= i < |s| && s[i] != from ==> r[i] == s[i]
    ensures from in s && from != to ==> multiset(r)[from] == multiset(s)[from] - 1
    ensures from in s ==> exists k :: 0 <= k < |s| && s[k] == from && from !in s[..k] && r == s[..k] + [to] + s[k + 1..]
  {
    var k := FindIndex(IsChar(from), s);
    if k < 0 then s
    else
      assert from !in s[..k];
      assert s == s[..k] + [s[k]] + s[k + 1..];
      s[..k] + [to] + s[k + 1..]
  }

  /** Only the first occurrence is replaced: "1,2,5" becomes "1.2,5". */
  lemma ReplaceFirstExample()
    ensures ReplaceFirst("1,2,5", ',', '.') == "1.2,5"
  {
    var s := "1,2,5";
    assert s[1..][0] == ',';
    assert FindIndex(IsChar(','), s[1..]) == 0;
    assert FindIndex(IsChar(','), s) == 1;
    assert s[..1] + ['.'] + s[2..] == "1.2,5";
  }
}
