/**
 * The parts of Go's `strings` and `strconv` packages that the two exporters
 * rely on, as pure functions over `string` (a `seq<char>`), each with the
 * property that pins down its meaning.
 */
module GoStrings {

  // ---------------------------------------------------------------- Contains

  /** `sub` occurs in `s` starting at index `i`. */
  predicate OccursAt(s: string, sub: string, i: int) {
    0 <= i && i + |sub| <= |s| && s[i..i + |sub|] == sub
  }

  /** strings.Contains: search `s` left to right for `sub`. */
  function Contains(s: string, sub: string): bool
    decreases |s|
  {
    if |sub| > |s| then false
    else if s[..|sub|] == sub then true
    else Contains(s[1..], sub)
  }

  /** Contains answers true exactly when `sub` occurs somewhere in `s`. */
  lemma {:induction false} ContainsIffOccurs(s: string, sub: string)
    ensures Contains(s, sub) <==> exists i :: OccursAt(s, sub, i)
    decreases |s|
  {
    if |sub| > |s| {
    } else if s[..|sub|] == sub {
      assert OccursAt(s, sub, 0);
    } else {
      ContainsIffOccurs(s[1..], sub);
      if Contains(s[1..], sub) {
        var i :| OccursAt(s[1..], sub, i);
        assert s[1..][i..i + |sub|] == s[i + 1..i + 1 + |sub|];
        assert OccursAt(s, sub, i + 1);
      } else {
        forall i | OccursAt(s, sub, i) ensures false {
          if i != 0 {
            assert s[1..][i - 1..i - 1 + |sub|] == s[i..i + |sub|];
            assert OccursAt(s[1..], sub, i - 1);
          }
        }
      }
    }
  }

  /** The empty string is contained in every string. */
  lemma EmptyIsContainedEverywhere(s: string)
    ensures Contains(s, "")
  {
    ContainsIffOccurs(s, "");
    assert OccursAt(s, "", 0);
  }

  // ------------------------------------------------------ HasSuffix, TrimSuffix

  predicate HasSuffix(s: string, suffix: string) {
    |suffix| <= |s| && s[|s| - |suffix|..] == suffix
  }

  /** strings.TrimSuffix: drop one trailing `suffix` if present. */
  function TrimSuffix(s: string, suffix: string): (r: string)
    ensures HasSuffix(s, suffix) ==> r + suffix == s
    ensures !HasSuffix(s, suffix) ==> r == s
  {
    if HasSuffix(s, suffix) then s[..|s| - |suffix|] else s
  }

  // ----------------------------------------------------------------- ToLower

  predicate IsAsciiUpper(c: char) {
    'A' <= c <= 'Z'
  }

  function LowerChar(c: char): char {
    if IsAsciiUpper(c) then (c as int - 'A' as int + 'a' as int) as char else c
  }

  /** No ASCII capital letter occurs in `s`. */
  predicate IsLowerCase(s: string) {
    forall i :: 0 <= i < |s| ==> !IsAsciiUpper(s[i])
  }

  /** strings.ToLower, restricted to ASCII letters. */
  function ToLower(s: string): (r: string)
    ensures |r| == |s|
    ensures forall i :: 0 <= i < |s| ==> r[i] == LowerChar(s[i])
  {
    seq(|s|, i requires 0 <= i < |s| => LowerChar(s[i]))
  }

  /** ToLower leaves no capital behind, and it changes nothing in a lower-case string. */
  lemma ToLowerNormalizes(s: string)
    ensures IsLowerCase(ToLower(s))
    ensures IsLowerCase(s) ==> ToLower(s) == s
    ensures ToLower(ToLower(s)) == ToLower(s)
  {
    var l := ToLower(s);
    assert forall i :: 0 <= i < |l| ==> LowerChar(l[i]) == l[i];
  }

  // --------------------------------------------------------------- TrimSpace

  /** unicode.IsSpace, the predicate strings.TrimSpace trims by. */
  predicate IsSpace(c: char) {
    || c == ' ' || c == '\t' || c == '\n' || c == '\U{000B}' || c == '\U{000C}' || c == '\r'
    || c == '\U{0085}' || c == '\U{00A0}' || c == '\U{1680}'
    || ('\U{2000}' <= c <= '\U{200A}')
    || c == '\U{2028}' || c == '\U{2029}' || c == '\U{202F}' || c == '\U{205F}' || c == '\U{3000}'
  }

  /** The end of the run of white space that starts at `i`. */
  function SpaceRunEnd(s: string, i: nat): (j: nat)
    requires i <= |s|
    ensures i <= j <= |s|
    ensures forall k :: i <= k < j ==> IsSpace(s[k])
    ensures j < |s| ==> !IsSpace(s[j])
    decreases |s| - i
  {
    if i < |s| && IsSpace(s[i]) then SpaceRunEnd(s, i + 1) else i
  }

  /** The start of the run of white space that ends at `j`, looking no further back than `lo`. */
  function SpaceRunStart(s: string, lo: nat, j: nat): (i: nat)
    requires lo <= j <= |s|
    ensures lo <= i <= j
    ensures forall k :: i <= k < j ==> IsSpace(s[k])
    ensures i > lo ==> !IsSpace(s[i - 1])
    decreases j - lo
  {
    if j > lo && IsSpace(s[j - 1]) then SpaceRunStart(s, lo, j - 1) else j
  }

  /**
   * strings.TrimSpace: the result is the piece of `s` left once the white
   * space before and after it is cut off; it has no white space at either
   * end, and it is empty exactly when `s` is nothing but white space.
   */
  function TrimSpace(s: string): (r: string)
    ensures exists i :: (OccursAt(s, r, i)
      && (forall k :: 0 <= k < i ==> IsSpace(s[k]))
      && (forall k :: i + |r| <= k < |s| ==> IsSpace(s[k])))
    ensures r != [] ==> !IsSpace(r[0]) && !IsSpace(r[|r| - 1])
    ensures r == [] <==> forall k :: 0 <= k < |s| ==> IsSpace(s[k])
  {
    var i := SpaceRunEnd(s, 0);
    var j := SpaceRunStart(s, i, |s|);
    assert OccursAt(s, s[i..j], i) && i + (j - i) == j;
    s[i..j]
  }

  // ------------------------------------------------------------- Split, Join

  /** strings.Split with a one-character separator; `Split("", sep)` is `[""]`. */
  function Split(s: string, sep: char): (parts: seq<string>)
    ensures |parts| >= 1
    decreases |s|
  {
    if s == [] then [[]]
    else
      var rest := Split(s[1..], sep);
      if s[0] == sep then [[]] + rest
      else [[s[0]] + rest[0]] + rest[1..]
  }

  /** strings.Join with a one-character separator. */
  function Join(parts: seq<string>, sep: char): string {
    if |parts| == 0 then ""
    else if |parts| == 1 then parts[0]
    else parts[0] + [sep] + Join(parts[1..], sep)
  }

  /** Joining the parts of a split gives back the original string. */
  lemma {:induction false} JoinSplit(s: string, sep: char)
    ensures Join(Split(s, sep), sep) == s
    decreases |s|
  {
    if s != [] {
      var rest := Split(s[1..], sep);
      JoinSplit(s[1..], sep);
      if s[0] == sep {
        assert Join([[]] + rest, sep) == [] + [sep] + Join(rest, sep);
      } else if |rest| == 1 {
        assert Split(s, sep) == [[s[0]] + rest[0]];
      } else {
        var parts := Split(s, sep);
        assert parts[1..] == rest[1..];
        assert Join(rest, sep) == rest[0] + [sep] + Join(rest[1..], sep);
      }
    }
  }

  /** No part of a split contains the separator. */
  lemma {:induction false} SplitPartsAvoidSeparator(s: string, sep: char)
    ensures forall p :: p in Split(s, sep) ==> sep !in p
    decreases |s|
  {
    if s != [] {
      SplitPartsAvoidSeparator(s[1..], sep);
      var rest := Split(s[1..], sep);
      if s[0] != sep {
        assert rest[0] in rest;
        forall p | p in Split(s, sep) ensures sep !in p {
          if p != [s[0]] + rest[0] {
            assert p in rest[1..];
          }
        }
      }
    }
  }

  /** A string that ends with the separator splits into parts whose last one is empty. */
  lemma {:induction false} SplitTrailingSeparator(s: string, sep: char)
    ensures var parts := Split(s + [sep], sep); parts[|parts| - 1] == []
    decreases |s|
  {
    if s == [] {
      assert ([] + [sep])[1..] == [];
    } else {
      assert (s + [sep])[1..] == s[1..] + [sep];
      SplitTrailingSeparator(s[1..], sep);
    }
  }

  // ----------------------------------------------------------- Itoa and back

  predicate IsDigit(c: char) {
    '0' <= c <= '9'
  }

  function DigitChar(d: nat): (c: char)
    requires d < 10
    ensures IsDigit(c) && DigitValue(c) == d
  {
    "0123456789"[d]
  }

  function DigitValue(c: char): nat
    requires IsDigit(c)
  {
    c as int - '0' as int
  }

  /** The decimal digits of `n`, most significant first, without leading zeros. */
  function NatToDecimal(n: nat): (r: string)
    ensures |r| >= 1 && forall i :: 0 <= i < |r| ==> IsDigit(r[i])
    ensures |r| == 1 || r[0] != '0'
    ensures n == 0 <==> r == "0"
    decreases n
  {
    if n < 10 then [DigitChar(n)] else NatToDecimal(n / 10) + [DigitChar(n % 10)]
  }

  /** strconv.Itoa: an optional minus sign and the decimal digits of the magnitude. */
  function Itoa(n: int): string {
    if n < 0 then "-" + NatToDecimal(-n) else NatToDecimal(n)
  }

  /**
   * The shape of an Itoa label: a run of digits with no leading zero (but
   * "0" itself), preceded by a minus sign exactly for a negative integer.
   */
  lemma ItoaForm(n: int)
    ensures n >= 0 ==> IsDigits(Itoa(n)) && (|Itoa(n)| == 1 || Itoa(n)[0] != '0')
    ensures n == 0 <==> Itoa(n) == "0"
    ensures n < 0 ==> var r := Itoa(n); |r| >= 2 && r[0] == '-' && IsDigits(r[1..]) && r[1] != '0'
  {
    if n < 0 {
      assert Itoa(n)[1..] == NatToDecimal(-n);
    }
  }

  /** A non-empty run of decimal digits. */
  predicate IsDigits(s: string) {
    |s| >= 1 && forall i :: 0 <= i < |s| ==> IsDigit(s[i])
  }

  /** The value of a run of decimal digits, read left to right. */
  ghost function DigitsValue(s: string): nat
    requires forall i :: 0 <= i < |s| ==> IsDigit(s[i])
  {
    if s == [] then 0 else DigitsValue(s[..|s| - 1]) * 10 + DigitValue(s[|s| - 1])
  }

  /** The integer a decimal label stands for: the reading that undoes Itoa. */
  ghost function ParseInt(s: string): int
    requires IsDigits(s) || (|s| >= 2 && s[0] == '-' && IsDigits(s[1..]))
  {
    if s[0] == '-' then -(DigitsValue(s[1..]) as int) else DigitsValue(s)
  }

  lemma {:induction false} DigitsValueOfDecimal(n: nat)
    ensures DigitsValue(NatToDecimal(n)) == n
    decreases n
  {
    if n >= 10 {
      DigitsValueOfDecimal(n / 10);
      var d := NatToDecimal(n);
      assert d[..|d| - 1] == NatToDecimal(n / 10);
    }
  }

  /** Reading back an Itoa label gives the integer it was made from. */
  lemma ParseItoa(n: int)
    ensures var s := Itoa(n); (IsDigits(s) || (|s| >= 2 && s[0] == '-' && IsDigits(s[1..]))) && ParseInt(s) == n
  {
    if n < 0 {
      DigitsValueOfDecimal(-n);
      assert Itoa(n)[1..] == NatToDecimal(-n);
    } else {
      DigitsValueOfDecimal(n);
    }
  }

  /** Distinct integers get distinct decimal labels. */
  lemma ItoaInjective(a: int, b: int)
    ensures Itoa(a) == Itoa(b) ==> a == b
  {
    ParseItoa(a);
    ParseItoa(b);
  }
}
