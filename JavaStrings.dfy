/** The few java.lang.String and java.lang.Integer behaviours the game logic relies on:
    case-insensitive comparison (ASCII folding only), decimal rendering of an int,
    and the first field of a split on the literal separator " | ". */
module JavaStrings {

  /** ASCII lower-casing; every other character is left alone. */
  function ToLower(c: char): char {
    if 'A' <= c <= 'Z' then (c as int - 'A' as int + 'a' as int) as char else c
  }

  /** String.equalsIgnoreCase, restricted to ASCII case folding. */
  predicate EqualsIgnoreCase(a: string, b: string) {
    |a| == |b| && forall i :: 0 <= i < |a| ==> ToLower(a[i]) == ToLower(b[i])
  }

  lemma EqualsIgnoreCaseReflexive(a: string)
    ensures EqualsIgnoreCase(a, a)
  {
  }

  lemma EqualsIgnoreCaseSymmetric(a: string, b: string)
    ensures EqualsIgnoreCase(a, b) <==> EqualsIgnoreCase(b, a)
  {
  }

  /** Case matters only for letters: "fighter" and "FIGHTER" name the same ship,
      "Fighter" and "Fighters" do not. */
  lemma EqualsIgnoreCaseExamples()
    ensures EqualsIgnoreCase("fighter", "FIGHTER")
    ensures !EqualsIgnoreCase("Fighter", "Fighters")
    ensures !EqualsIgnoreCase("Fighter", "Cruiser")
  {
    assert ToLower("Cruiser"[0]) != ToLower("Fighter"[0]);
  }

  // ---------------------------------------------------------------------------
  // Integer.toString

  const Digits: string := "0123456789"

  /** Decimal digits of a natural number, most significant first. */
  function NatToString(n: nat): (s: string)
    ensures |s| >= 1
    ensures forall i :: 0 <= i < |s| ==> s[i] in Digits
    decreases n
  {
    if n < 10 then [Digits[n]] else NatToString(n / 10) + [Digits[n % 10]]
  }

  /** Integer.toString: a leading '-' for negative values, then the digits. */
  function IntToString(n: int): (s: string)
    ensures |s| >= 1
    ensures forall i :: 0 <= i < |s| ==> s[i] == '-' || s[i] in Digits
    ensures (s[0] == '-') <==> n < 0
    decreases if n < 0 then 1 else 0
  {
    if n < 0 then "-" + IntToString(-n) else NatToString(n)
  }

  /** The value of a string of decimal digits; undoes NatToString. */
  function DigitsValue(s: string): int
    decreases |s|
  {
    if s == [] then 0
    else
      var c := s[|s| - 1];
      DigitsValue(s[..|s| - 1]) * 10 + (if '0' <= c <= '9' then c as int - '0' as int else 0)
  }

  lemma {:induction false} NatToStringValue(n: nat)
    ensures DigitsValue(NatToString(n)) == n
    decreases n
  {
    var s := NatToString(n);
    if n < 10 {
      assert s[..|s| - 1] == [];
      assert s[0] == Digits[n];
    } else {
      NatToStringValue(n / 10);
      assert s[..|s| - 1] == NatToString(n / 10);
      assert s[|s| - 1] == Digits[n % 10];
    }
  }

  // ---------------------------------------------------------------------------
  // s.split(" \\| ")[0]

  const Separator: string := " | "

  /** A separator occurrence starts at index j of s. */
  predicate SeparatorAt(s: string, j: int) {
    0 <= j && j + 3 <= |s| && s[j..j + 3] == Separator
  }

  /** The first field of s.split(" \\| "): everything before the leftmost separator,
      or the whole string when there is none. */
  function SplitHead(s: string): (r: string)
    ensures |r| <= |s| && r == s[..|r|]
    ensures forall j :: 0 <= j < |r| ==> !SeparatorAt(s, j)
    ensures |r| < |s| ==> SeparatorAt(s, |r|)
    decreases |s|
  {
    if |s| < 3 then s
    else if s[..3] == Separator then ""
    else
      var rest := SplitHead(s[1..]);
      assert forall j :: 1 <= j < 1 + |rest| ==> !SeparatorAt(s, j) by {
        forall j | 1 <= j < 1 + |rest| ensures !SeparatorAt(s, j) {
          assert !SeparatorAt(s[1..], j - 1);
          if j + 3 <= |s| { assert s[j..j + 3] == s[1..][j - 1..j + 2]; }
        }
      }
      assert |rest| < |s| - 1 ==> s[1 + |rest|..1 + |rest| + 3] == s[1..][|rest|..|rest| + 3];
      [s[0]] + rest
  }

  /** The head of the split is determined by where the first separator stands. */
  lemma SplitHeadAtFirstSeparator(s: string, k: int)
    requires SeparatorAt(s, k)
    requires forall j :: 0 <= j < k ==> !SeparatorAt(s, j)
    ensures SplitHead(s) == s[..k]
  {
  }

  /** Without any separator the split yields the whole string. */
  lemma SplitHeadWithoutSeparator(s: string)
    requires forall j :: 0 <= j < |s| ==> !SeparatorAt(s, j)
    ensures SplitHead(s) == s
  {
  }
}
