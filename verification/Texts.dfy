/** The two string operations the import relies on: trimming and decimal suffixes. */
module Texts {

  predicate IsSpace(c: char) {
    c == ' ' || '\t' <= c <= '\r' || c in {'\U{a0}', '\U{1680}', '\U{2028}', '\U{2029}', '\U{202f}', '\U{205f}', '\U{3000}', '\U{feff}'}
    || '\U{2000}' <= c <= '\U{200a}'
  }

  function Trim(s: string): (r: string)
    ensures |r| <= |s|
    ensures r != "" ==> !IsSpace(r[0]) && !IsSpace(r[|r| - 1])
  {
    if s != "" && IsSpace(s[0]) then Trim(s[1..])
    else if s != "" && IsSpace(s[|s| - 1]) then Trim(s[..|s| - 1])
    else s
  }

  /** `Trim` takes white space off both ends, and nothing else. */
  lemma {:induction false} TrimTakesSpace(s: string)
    ensures exists i, j :: Trims(s, i, j) && Trim(s) == s[i..j]
  {
    if s != "" && IsSpace(s[0]) {
      TrimTakesSpace(s[1..]);
      var i, j :| Trims(s[1..], i, j) && Trim(s[1..]) == s[1..][i..j];
      assert s[1..][i..j] == s[i + 1..j + 1];
      forall k | 0 <= k < i + 1 || j + 1 <= k < |s|
        ensures IsSpace(s[k])
      {
        assert k > 0 ==> s[k] == s[1..][k - 1];
      }
      assert Trims(s, i + 1, j + 1);
    } else if s != "" && IsSpace(s[|s| - 1]) {
      var most := s[..|s| - 1];
      TrimTakesSpace(most);
      var i, j :| Trims(most, i, j) && Trim(most) == most[i..j];
      assert most[i..j] == s[i..j];
      forall k | 0 <= k < i || j <= k < |s|
        ensures IsSpace(s[k])
      {
        assert k < |s| - 1 ==> s[k] == most[k];
      }
      assert Trims(s, i, j);
    } else {
      assert Trims(s, 0, |s|) && s[0..|s|] == s;
    }
  }

  /** All outside the part is white space. */
  ghost predicate Trims(s: string, i: int, j: int) {
    0 <= i <= j <= |s| && forall k :: 0 <= k < i || j <= k < |s| ==> IsSpace(s[k])
  }

  function Decimal(n: nat): (r: string)
    ensures r != ""
  {
    if n < 10 then [Digit(n)] else Decimal(n / 10) + [Digit(n % 10)]
  }

  function Digit(d: nat): char
    requires d < 10
  {
    '0' + d as char
  }

  /** The number a string of digits stands for. */
  function ValueOf(digits: string): int {
    if digits == "" then 0 else 10 * ValueOf(digits[..|digits| - 1]) + (digits[|digits| - 1] as int - '0' as int)
  }

  /** The text of a number: its digits, without a leading zero. */
  lemma {:induction false} DecimalIsNumber(n: nat)
    ensures ValueOf(Decimal(n)) == n
    ensures forall c <- Decimal(n) :: '0' <= c <= '9'
    ensures n > 0 ==> Decimal(n)[0] != '0'
  {
    var s := Decimal(n);
    if n >= 10 {
      DecimalIsNumber(n / 10);
      assert s[..|s| - 1] == Decimal(n / 10) && s[|s| - 1] == Digit(n % 10);
    } else {
      assert s[..0] == "";
    }
  }

  lemma {:induction false} DecimalInjective(m: nat, n: nat)
    requires Decimal(m) == Decimal(n)
    ensures m == n
  {
    var s, t := Decimal(m), Decimal(n);
    assert s[|s| - 1] == Digit(m % 10) && t[|t| - 1] == Digit(n % 10);
    assert m % 10 == n % 10;
    if m >= 10 && n >= 10 {
      assert s[..|s| - 1] == Decimal(m / 10) && t[..|t| - 1] == Decimal(n / 10);
      DecimalInjective(m / 10, n / 10);
    }
  }

  /** The n-th replacement for a name that is taken. */
  function Suffixed(stem: string, n: nat): string {
    stem + "-" + Decimal(n)
  }

  lemma SuffixedInjective(stem: string, m: nat, n: nat)
    requires Suffixed(stem, m) == Suffixed(stem, n)
    ensures m == n
  {
    assert Suffixed(stem, m)[|stem| + 1..] == Decimal(m);
    assert Suffixed(stem, n)[|stem| + 1..] == Decimal(n);
    DecimalInjective(m, n);
  }

  /** The taken names that are the n-th replacement or a later one. */
  ghost function TakenFrom(stem: string, n: nat, taken: set<string>): set<string> {
    set t | t in taken && exists m :: n <= m && t == Suffixed(stem, m)
  }

  lemma TakenFromShrinks(stem: string, n: nat, taken: set<string>)
    requires Suffixed(stem, n) in taken
    ensures TakenFrom(stem, n + 1, taken) < TakenFrom(stem, n, taken)
  {
    var t := Suffixed(stem, n);
    assert t in TakenFrom(stem, n, taken);
    if t in TakenFrom(stem, n + 1, taken) {
      var m :| n + 1 <= m && t == Suffixed(stem, m);
      SuffixedInjective(stem, m, n);
    }
  }
}
