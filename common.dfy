/**
 * Shared vocabulary of the exam portal model: optional values, the JavaScript
 * truthiness of optional strings, `String.prototype.includes`, ASCII
 * lower-casing, and the integer formatting (`Number.prototype.toString`,
 * `padStart`) the screens use to render numbers.
 */
module Common {

  /** `null`/`undefined` versus a present value. */
  datatype Option<T> = None | Some(value: T) {
    function GetOr(default: T): T {
      match this
      case Some(v) => v
      case None => default
    }
  }

  /** JavaScript truthiness of a string that may be missing: present and non-empty. */
  predicate Truthy(o: Option<string>) {
    o.Some? && o.value != ""
  }

  // ----- String.prototype.includes -----

  /** `sub` occurs in `s` at position `i`, checked from character `k` of `sub` on. */
  predicate MatchesAt(s: string, sub: string, i: nat, k: nat)
    requires i + |sub| <= |s|
    decreases |sub| - k
  {
    k >= |sub| || (s[i + k] == sub[k] && MatchesAt(s, sub, i, k + 1))
  }

  /** `sub` occurs in `s` at some position `i` or later. */
  predicate ContainsFrom(s: string, sub: string, i: nat)
    decreases |s| - i
  {
    i + |sub| <= |s| && (MatchesAt(s, sub, i, 0) || ContainsFrom(s, sub, i + 1))
  }

  /** `s.includes(sub)`. */
  predicate Contains(s: string, sub: string) {
    ContainsFrom(s, sub, 0)
  }

  lemma {:induction false} MatchesAtIff(s: string, sub: string, i: nat, k: nat)
    requires i + |sub| <= |s| && k <= |sub|
    ensures MatchesAt(s, sub, i, k) <==> s[i + k..i + |sub|] == sub[k..]
    decreases |sub| - k
  {
    if k < |sub| {
      MatchesAtIff(s, sub, i, k + 1);
      assert s[i + k..i + |sub|] == [s[i + k]] + s[i + k + 1..i + |sub|];
      assert sub[k..] == [sub[k]] + sub[k + 1..];
    }
  }

  /** `sub` occurs in `s` as the slice starting at `j`. */
  predicate OccursAt(s: string, sub: string, j: nat) {
    j + |sub| <= |s| && s[j..j + |sub|] == sub
  }

  lemma {:induction false} ContainsFromIff(s: string, sub: string, i: nat)
    ensures ContainsFrom(s, sub, i) <==> exists j :: i <= j && OccursAt(s, sub, j)
    decreases |s| - i
  {
    if i + |sub| <= |s| {
      MatchesAtIff(s, sub, i, 0);
      ContainsFromIff(s, sub, i + 1);
      assert sub[0..] == sub;
      if MatchesAt(s, sub, i, 0) {
        assert OccursAt(s, sub, i);
      }
      if exists j :: i <= j && OccursAt(s, sub, j) {
        var j :| i <= j && OccursAt(s, sub, j);
        if j > i {
          assert i + 1 <= j;
        }
      }
    }
  }

  /** `includes` is exactly "occurs as a contiguous slice somewhere". */
  lemma ContainsIff(s: string, sub: string)
    ensures Contains(s, sub) <==> exists j :: OccursAt(s, sub, j)
  {
    ContainsFromIff(s, sub, 0);
  }

  /** A witness position establishes `includes`. */
  lemma ContainsAt(s: string, sub: string, j: nat)
    requires OccursAt(s, sub, j)
    ensures Contains(s, sub)
  {
    ContainsIff(s, sub);
  }

  /** Every piece of an occurring string occurs too. */
  lemma ContainsPiece(s: string, sub: string, a: nat, b: nat)
    requires a <= b <= |sub| && Contains(s, sub)
    ensures Contains(s, sub[a..b])
  {
    ContainsIff(s, sub);
    var j: nat :| OccursAt(s, sub, j);
    assert j + |sub| <= |s| && s[j..j + |sub|] == sub;
    forall i | 0 <= i < b - a ensures s[j + a..j + b][i] == sub[a..b][i] {
      assert s[j + a + i] == s[j..j + |sub|][a + i];
    }
    assert s[j + a..j + b] == sub[a..b];
    ContainsAt(s, sub[a..b], j + a);
  }

  /** A character of `sub` that `s` lacks rules the occurrence out. */
  lemma AbsentCharRefutes(s: string, sub: string, k: nat)
    requires k < |sub| && sub[k] !in s
    ensures !Contains(s, sub)
  {
    if Contains(s, sub) {
      ContainsPiece(s, sub, k, k + 1);
      ContainsIff(s, sub[k..k + 1]);
    }
  }

  /** A piece of `sub` that does not occur in `s` rules the occurrence out. */
  lemma AbsentPieceRefutes(s: string, sub: string, a: nat, b: nat)
    requires a <= b <= |sub| && !Contains(s, sub[a..b])
    ensures !Contains(s, sub)
  {
    if Contains(s, sub) {
      ContainsPiece(s, sub, a, b);
    }
  }

  /** Two adjacent characters of `sub` that never stand side by side in `s` rule the occurrence out. */
  lemma AbsentPairRefutes(s: string, sub: string, a: nat)
    requires a + 2 <= |sub|
    requires forall j :: 0 <= j < |s| - 1 ==> !(s[j] == sub[a] && s[j + 1] == sub[a + 1])
    ensures !Contains(s, sub)
  {
    var piece := sub[a..a + 2];
    forall j: nat ensures !OccursAt(s, piece, j) {
      if j + 2 <= |s| {
        assert s[j..j + 2][0] == s[j] && s[j..j + 2][1] == s[j + 1];
      }
    }
    ContainsIff(s, piece);
    AbsentPieceRefutes(s, sub, a, a + 2);
  }

  /** A string occurs in itself. */
  lemma ContainsSelf(s: string)
    ensures Contains(s, s)
  {
    assert s[0..|s|] == s;
    ContainsAt(s, s, 0);
  }

  // ----- String.prototype.toLowerCase, on ASCII letters -----

  function LowerChar(c: char): (r: char)
    ensures 'A' <= c <= 'Z' ==> r as int == c as int + 32
    ensures !('A' <= c <= 'Z') ==> r == c
  {
    if 'A' <= c <= 'Z' then (c as int + 32) as char else c
  }

  function ToLower(s: string): (r: string)
    ensures |r| == |s|
    ensures forall i :: 0 <= i < |s| ==> r[i] == LowerChar(s[i])
  {
    if s == [] then [] else [LowerChar(s[0])] + ToLower(s[1..])
  }

  /** Lower-casing twice changes nothing more. */
  lemma ToLowerIdempotent(s: string)
    ensures ToLower(ToLower(s)) == ToLower(s)
  {
    var once := ToLower(s);
    var twice := ToLower(once);
    assert |twice| == |once|;
    forall i | 0 <= i < |once| ensures twice[i] == once[i] {
      assert !('A' <= once[i] <= 'Z');
    }
  }

  /** No ASCII capital in `s`: lower-casing leaves it alone. */
  predicate NoUpper(s: string) {
    forall i :: 0 <= i < |s| ==> !('A' <= s[i] <= 'Z')
  }

  /** An occurrence of a lower-case word survives lower-casing. */
  lemma LowerKeeps(s: string, sub: string, j: nat)
    requires OccursAt(s, sub, j) && NoUpper(sub)
    ensures OccursAt(ToLower(s), sub, j)
  {
    var r := ToLower(s);
    forall k | 0 <= k < |sub| ensures r[j + k] == sub[k] {
      assert s[j + k] == s[j..j + |sub|][k];
    }
    assert r[j..j + |sub|] == sub;
  }

  /** A letter missing from `s` in both cases is missing from its lower-cased form. */
  lemma LowerAbsent(s: string, c: char)
    requires 'a' <= c <= 'z' && c !in s && (c as int - 32) as char !in s
    ensures c !in ToLower(s)
  {
    var r := ToLower(s);
    forall i | 0 <= i < |r| ensures r[i] != c {
      assert s[i] in s;
    }
  }

  /** A word with a letter that `s` lacks in both cases does not occur in the lower-cased `s`. */
  lemma LowerAbsentRefutes(s: string, sub: string, k: nat)
    requires k < |sub| && 'a' <= sub[k] <= 'z'
    requires sub[k] !in s && (sub[k] as int - 32) as char !in s
    ensures !Contains(ToLower(s), sub)
  {
    LowerAbsent(s, sub[k]);
    AbsentCharRefutes(ToLower(s), sub, k);
  }

  // ----- Number.prototype.toString and padStart, on integers -----

  function DigitChar(d: nat): (c: char)
    requires d < 10
    ensures '0' <= c <= '9' && c as int - '0' as int == d
  {
    ('0' as int + d) as char
  }

  predicate IsDigit(c: char) {
    '0' <= c <= '9'
  }

  predicate AllDigits(s: string) {
    forall i :: 0 <= i < |s| ==> IsDigit(s[i])
  }

  /** Decimal rendering of a natural number: no sign, no leading zero. */
  function Decimal(n: nat): (r: string)
    ensures |r| >= 1 && AllDigits(r)
    ensures r[0] == '0' ==> n == 0
  {
    if n < 10 then [DigitChar(n)] else Decimal(n / 10) + [DigitChar(n % 10)]
  }

  /** Reading a string of digits back as a number (leading zeros allowed). */
  function ParseDecimal(s: string): nat
    requires AllDigits(s)
  {
    if s == [] then 0
    else ParseDecimal(s[..|s| - 1]) * 10 + (s[|s| - 1] as int - '0' as int)
  }

  /** Round trip: the rendered digits read back as the number. */
  lemma {:induction false} ParseDecimalOfDecimal(n: nat)
    ensures ParseDecimal(Decimal(n)) == n
  {
    if n >= 10 {
      ParseDecimalOfDecimal(n / 10);
      var r := Decimal(n);
      assert r[..|r| - 1] == Decimal(n / 10);
    }
  }

  /** A leading `'0'` does not change the value read back. */
  lemma {:induction false} ParseDecimalLeadingZero(s: string)
    requires AllDigits(s)
    ensures AllDigits("0" + s) && ParseDecimal("0" + s) == ParseDecimal(s)
    decreases |s|
  {
    if s != [] {
      var t := "0" + s;
      assert t[..|t| - 1] == "0" + s[..|s| - 1];
      ParseDecimalLeadingZero(s[..|s| - 1]);
    }
  }

  /** `Number.prototype.toString()` of an integer (below 10^21, where JavaScript switches to exponent form). */
  function IntToString(i: int): string {
    if i < 0 then "-" + Decimal(-i) else Decimal(i)
  }

  /** `s.padStart(2, '0')`. */
  function PadStart2(s: string): (r: string)
    ensures |s| >= 2 ==> r == s
    ensures |s| < 2 ==> |r| == 2 && r[2 - |s|..] == s
    ensures forall i :: 0 <= i < |r| - |s| ==> r[i] == '0'
  {
    if |s| >= 2 then s else if |s| == 1 then "0" + s else "00"
  }

  /** Padding a decimal keeps it readable as the same number. */
  lemma PadStart2Decimal(n: nat)
    ensures AllDigits(PadStart2(Decimal(n)))
    ensures |PadStart2(Decimal(n))| >= 2
    ensures ParseDecimal(PadStart2(Decimal(n))) == n
  {
    ParseDecimalOfDecimal(n);
    if |Decimal(n)| < 2 {
      ParseDecimalLeadingZero(Decimal(n));
    }
  }

  function Min(a: int, b: int): (r: int)
    ensures r <= a && r <= b && (r == a || r == b)
  {
    if a < b then a else b
  }
}
