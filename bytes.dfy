/** Octets, the CRLF line ending and decimal numerals: the vocabulary the POP3
    wire format is written in. A Rust `String` is modelled by its UTF-8 bytes. */
module Bytes {
  import opened Wrappers

  newtype byte = x: int | 0 <= x < 256

  type Bytes = seq<byte>

  const CR: byte := 13
  const LF: byte := 10
  const SP: byte := 32
  const TAB: byte := 9
  const DOT: byte := 46
  const COLON: byte := 58
  const PLUS: byte := 43
  const CRLF: Bytes := [CR, LF]

  // ---------------------------------------------------------------------------
  // Line endings

  /** `s` holds a CRLF starting at position `i`. */
  predicate CrlfAt(s: Bytes, i: int) {
    0 <= i && i + 1 < |s| && s[i] == CR && s[i + 1] == LF
  }

  /** No CRLF starts before position `k` of `s`. */
  predicate NoCrlfBefore(s: Bytes, k: int) {
    forall i :: 0 <= i < k ==> !CrlfAt(s, i)
  }

  /** No CRLF occurs anywhere in `s`. */
  predicate NoCrlf(s: Bytes) {
    NoCrlfBefore(s, |s|)
  }

  /** The position of the first CRLF in `s` (nom's `take_until("\r\n")`). */
  function FindCrlf(s: Bytes): (r: Option<nat>)
    ensures r.Some? ==> CrlfAt(s, r.value) && NoCrlfBefore(s, r.value)
    ensures r.None? ==> NoCrlf(s)
  {
    FindCrlfFrom(s, 0)
  }

  function FindCrlfFrom(s: Bytes, from: nat): (r: Option<nat>)
    requires from <= |s| && NoCrlfBefore(s, from)
    ensures r.Some? ==> CrlfAt(s, r.value) && NoCrlfBefore(s, r.value)
    ensures r.None? ==> NoCrlf(s)
    decreases |s| - from
  {
    if from + 1 >= |s| then None
    else if s[from] == CR && s[from + 1] == LF then Some(from)
    else FindCrlfFrom(s, from + 1)
  }

  /** The search stops at the first CRLF and nowhere else. */
  lemma {:induction false} FindCrlfFirst(s: Bytes, k: nat, from: nat)
    requires from <= k && from <= |s| && NoCrlfBefore(s, from)
    requires CrlfAt(s, k) && NoCrlfBefore(s, k)
    ensures FindCrlfFrom(s, from) == Some(k)
    decreases k - from
  {
    if from < k {
      assert !CrlfAt(s, from);
      FindCrlfFirst(s, k, from + 1);
    }
  }

  /** The first CRLF of `text + CRLF + rest` is the one after `text`. */
  lemma FindCrlfAfter(text: Bytes, rest: Bytes)
    requires NoCrlf(text)
    ensures FindCrlf(text + CRLF + rest) == Some(|text|)
  {
    var s := text + CRLF + rest;
    forall i | 0 <= i < |text| ensures !CrlfAt(s, i) {
      if i + 1 < |text| {
        assert !CrlfAt(text, i);
      } else {
        assert s[i + 1] == CR;
      }
    }
    FindCrlfFirst(s, |text|, 0);
  }

  /** The text before the first CRLF holds none, and the CRLF splits `s` there. */
  lemma SplitAtFirstCrlf(s: Bytes, k: nat)
    requires CrlfAt(s, k) && NoCrlfBefore(s, k)
    ensures NoCrlf(s[..k])
    ensures s == s[..k] + CRLF + s[k + 2..]
  {
    var t := s[..k];
    forall i | 0 <= i < k ensures !CrlfAt(t, i) {
      assert !CrlfAt(s, i);
      if i + 1 < k {
        assert t[i] == s[i] && t[i + 1] == s[i + 1];
      }
    }
    assert s[k..k + 2] == CRLF;
    assert s == s[..k] + s[k..k + 2] + s[k + 2..];
  }

  /** Joining two CRLF-free pieces creates no CRLF unless it straddles the seam. */
  lemma NoCrlfConcat(a: Bytes, b: Bytes)
    requires NoCrlf(a) && NoCrlf(b)
    requires a == [] || b == [] || a[|a| - 1] != CR || b[0] != LF
    ensures NoCrlf(a + b)
  {
    var s := a + b;
    forall i | 0 <= i < |s| ensures !CrlfAt(s, i) {
      if i + 1 < |a| {
        assert !CrlfAt(a, i);
      } else if i >= |a| {
        assert !CrlfAt(b, i - |a|);
      }
    }
  }

  // ---------------------------------------------------------------------------
  // Leading white space (nom's `space0`: spaces and tabs)

  predicate IsSpace(b: byte) { b == SP || b == TAB }

  /** `s` without its leading spaces and tabs. */
  function SkipSpace(s: Bytes): (r: Bytes)
    ensures |r| <= |s| && r == s[|s| - |r|..]
    ensures r == [] || !IsSpace(r[0])
    ensures forall i :: 0 <= i < |s| - |r| ==> IsSpace(s[i])
  {
    if s != [] && IsSpace(s[0]) then SkipSpace(s[1..]) else s
  }

  // ---------------------------------------------------------------------------
  // Decimal numerals

  predicate IsDigit(b: byte) { 48 <= b <= 57 }

  predicate AllDigits(s: Bytes) { forall i :: 0 <= i < |s| ==> IsDigit(s[i]) }

  /** The length of the run of digits that `s` starts with. */
  function DigitRun(s: Bytes): (k: nat)
    ensures k <= |s| && AllDigits(s[..k])
    ensures k == |s| || !IsDigit(s[k])
  {
    if s != [] && IsDigit(s[0]) then
      var k := DigitRun(s[1..]);
      assert s[..k + 1] == [s[0]] + s[1..][..k];
      k + 1
    else 0
  }

  /** The number a string of digits denotes, most significant digit first. */
  function DecimalValue(s: Bytes): nat
    requires AllDigits(s)
  {
    if s == [] then 0 else DecimalValue(s[..|s| - 1]) * 10 + (s[|s| - 1] as int - 48)
  }

  /** The shortest decimal numeral of `n`, as Rust's `{}` formats a `u64`. */
  function Decimal(n: nat): (r: Bytes)
    ensures r != [] && AllDigits(r)
    ensures n > 0 ==> r[0] != 48
  {
    if n < 10 then [(48 + n) as byte] else Decimal(n / 10) + [(48 + n % 10) as byte]
  }

  /** Reading back a formatted number gives the number. */
  lemma {:induction false} DecimalRoundTrip(n: nat)
    ensures DecimalValue(Decimal(n)) == n
  {
    if n >= 10 {
      var d := Decimal(n);
      assert d[..|d| - 1] == Decimal(n / 10);
      DecimalRoundTrip(n / 10);
    }
  }

  /** Distinct numbers have distinct numerals. */
  lemma DecimalInjective(m: nat, n: nat)
    requires Decimal(m) == Decimal(n)
    ensures m == n
  {
    DecimalRoundTrip(m);
    DecimalRoundTrip(n);
  }

  /** A numeral never contains a CRLF. */
  lemma DigitsHaveNoCrlf(s: Bytes)
    requires AllDigits(s)
    ensures NoCrlf(s)
  {
  }
}
