/**
 * The string building blocks the report uses: Ruby's decimal rendering of
 * an integer (`"#{n}"`) and `Array#join(", ")`, each with a decoder that
 * undoes it.
 */
module Text {
  import opened Wrappers

  predicate IsDigit(c: char) { '0' <= c <= '9' }

  predicate AllDigits(s: string) { forall i :: 0 <= i < |s| ==> IsDigit(s[i]) }

  function DigitValue(c: char): nat
    requires IsDigit(c)
  {
    c as int - '0' as int
  }

  function DigitChar(d: nat): (c: char)
    requires d < 10
    ensures IsDigit(c) && DigitValue(c) == d
  {
    (d + '0' as int) as char
  }

  /** `"#{n}"` for a non-negative integer: its decimal digits, without leading zeros. */
  function NatToString(n: nat): string
  {
    if n < 10 then [DigitChar(n)] else NatToString(n / 10) + [DigitChar(n % 10)]
  }

  /** The rendering is a non-empty run of digits that starts with `0` only for zero. */
  lemma {:induction false} NatToStringDigits(n: nat)
    ensures |NatToString(n)| > 0 && AllDigits(NatToString(n))
    ensures NatToString(n)[0] == '0' <==> n == 0
  {
    if n >= 10 {
      NatToStringDigits(n / 10);
      var s := NatToString(n);
      assert s[..|s| - 1] == NatToString(n / 10);
      assert s[0] == NatToString(n / 10)[0];
    }
  }

  function DigitsValue(s: string): nat
    requires AllDigits(s)
  {
    if s == [] then 0 else DigitsValue(s[..|s| - 1]) * 10 + DigitValue(s[|s| - 1])
  }

  /** Reads a non-empty run of decimal digits. */
  function ParseNat(s: string): Option<nat>
  {
    if s != [] && AllDigits(s) then Some(DigitsValue(s)) else None
  }

  lemma {:induction false} ParseNatToString(n: nat)
    ensures ParseNat(NatToString(n)) == Some(n)
  {
    var s := NatToString(n);
    NatToStringDigits(n);
    if n >= 10 {
      ParseNatToString(n / 10);
      NatToStringDigits(n / 10);
      assert s[..|s| - 1] == NatToString(n / 10);
    } else {
      assert s[..|s| - 1] == [];
      assert DigitValue(s[0]) == n;
      assert DigitsValue(s) == n;
    }
  }

  /** The index of the first `c` in `s`, or `|s|` when `s` holds none. */
  function Pos(s: string, c: char): (i: nat)
    ensures i <= |s|
    ensures i < |s| ==> s[i] == c
  {
    if s == [] then 0 else if s[0] == c then 0 else 1 + Pos(s[1..], c)
  }

  /** No `c` comes before the position `Pos` reports. */
  lemma {:induction false} PosIsFirst(s: string, c: char)
    ensures c !in s[..Pos(s, c)]
  {
    if s != [] && s[0] != c {
      PosIsFirst(s[1..], c);
      assert s[..Pos(s, c)] == [s[0]] + s[1..][..Pos(s[1..], c)];
    }
  }

  /** `Pos` finds the first `c`, after a prefix that holds none. */
  lemma {:induction false} PosAfter(prefix: string, c: char, rest: string)
    requires c !in prefix
    ensures Pos(prefix + [c] + rest, c) == |prefix|
  {
    var s := prefix + [c] + rest;
    if prefix != [] {
      PosAfter(prefix[1..], c, rest);
      assert s[1..] == prefix[1..] + [c] + rest;
      assert s[0] == prefix[0];
    }
  }

  /** `parts.join(", ")`. */
  function Join(parts: seq<string>): (s: string)
  {
    if parts == [] then ""
    else if |parts| == 1 then parts[0]
    else parts[0] + ", " + Join(parts[1..])
  }

  /** Cuts `s` at every `", "`; the inverse of `Join` on parts without commas. */
  function Split(s: string): (parts: seq<string>)
    ensures |parts| > 0
    decreases |s|
  {
    var i := Pos(s, ',');
    if i + 1 < |s| && s[i + 1] == ' ' then [s[..i]] + Split(s[i + 2..]) else [s]
  }

  predicate CommaFree(parts: seq<string>)
  {
    forall i :: 0 <= i < |parts| ==> ',' !in parts[i]
  }

  lemma {:induction false} SplitJoin(parts: seq<string>)
    requires |parts| > 0 && CommaFree(parts)
    ensures Split(Join(parts)) == parts
  {
    var p := parts[0];
    if |parts| == 1 {
      assert ',' !in p;
    } else {
      var rest := Join(parts[1..]);
      var s := p + ", " + rest;
      assert s == p + [','] + ([' '] + rest);
      PosAfter(p, ',', [' '] + rest);
      assert s[..|p|] == p;
      assert s[|p| + 2..] == rest;
      SplitJoin(parts[1..]);
      assert [p] + parts[1..] == parts;
    }
  }

  lemma {:induction false} JoinNonEmpty(parts: seq<string>)
    requires |parts| > 0 && parts[0] != ""
    ensures Join(parts) != ""
  {
  }
}
