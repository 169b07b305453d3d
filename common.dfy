/** Shared vocabulary: optional and failing results, and the few pieces of
    java.lang.String / Integer / StringTokenizer behaviour the tracker relies on. */
module Common {

  datatype Option<T> = None | Some(value: T)

  datatype Result<T, E> = Ok(value: T) | Err(error: E) {
    predicate IsFailure() {
      Err?
    }

    function PropagateFailure<U>(): Result<U, E>
      requires Err?
    {
      Err(error)
    }

    function Extract(): T
      requires Ok?
    {
      value
    }
  }

  const MinInt: int := -0x8000_0000
  const MaxInt: int := 0x7fff_ffff

  predicate IsDigit(c: char) {
    '0' <= c <= '9'
  }

  predicate AllDigits(s: string) {
    forall i :: 0 <= i < |s| ==> IsDigit(s[i])
  }

  /** Decimal value of a string of ASCII digits, most significant first. */
  function DigitsValue(s: string): nat
    requires AllDigits(s)
    decreases |s|
  {
    if s == [] then 0
    else 10 * DigitsValue(s[..|s| - 1]) + (s[|s| - 1] as int - '0' as int)
  }

  /** Integer.parseInt: an optional sign, at least one digit, and a value that
      fits in 32 bits; anything else is a NumberFormatException (None). */
  function ParseInt(s: string): (r: Option<int>)
    ensures r.Some? ==> MinInt <= r.value <= MaxInt
    ensures s == [] ==> r.None?
    // Unsigned: all digits, value at most MaxInt.
    ensures s != [] && IsDigit(s[0]) ==>
      && (r.Some? <==> AllDigits(s) && DigitsValue(s) <= MaxInt)
      && (r.Some? ==> r.value == DigitsValue(s))
    // Plus sign: at least one digit after it, value at most MaxInt.
    ensures s != [] && s[0] == '+' ==>
      && (r.Some? <==> |s| > 1 && AllDigits(s[1..]) && DigitsValue(s[1..]) <= MaxInt)
      && (r.Some? ==> r.value == DigitsValue(s[1..]))
    // Minus sign: at least one digit after it, magnitude at most 2^31.
    ensures s != [] && s[0] == '-' ==>
      && (r.Some? <==> |s| > 1 && AllDigits(s[1..]) && DigitsValue(s[1..]) <= -MinInt)
      && (r.Some? ==> r.value == -(DigitsValue(s[1..]) as int))
    // Any other first character is a NumberFormatException.
    ensures s != [] && !IsDigit(s[0]) && s[0] != '+' && s[0] != '-' ==> r.None?
  {
    if s == [] then None
    else
      var neg := s[0] == '-';
      var signed := s[0] == '-' || s[0] == '+';
      var digits := if signed then s[1..] else s;
      if digits == [] || !AllDigits(digits) then None
      else
        var v: int := if neg then 0 - (DigitsValue(digits) as int) else DigitsValue(digits);
        if MinInt <= v <= MaxInt then Some(v) else None
  }

  /** A Java int computation: the mathematical value reduced to the 32-bit
      two's-complement range, as int arithmetic wraps around. */
  function Wrap32(x: int): (r: int)
    ensures MinInt <= r <= MaxInt
    ensures (r - x) % 0x1_0000_0000 == 0
    ensures MinInt <= x <= MaxInt ==> r == x
  {
    (x - MinInt) % 0x1_0000_0000 + MinInt
  }

  /** Two-character zero-padded rendering of 0..99 (String.format "%02d"). */
  function TwoDigits(n: int): (r: string)
    requires 0 <= n < 100
    ensures |r| == 2 && AllDigits(r) && DigitsValue(r) == n
  {
    var r := [(n / 10 + '0' as int) as char, (n % 10 + '0' as int) as char];
    assert r[..1][..0] == [];
    assert DigitsValue(r[..1]) == n / 10;
    r
  }

  /** String.contains. */
  predicate Contains(s: string, sub: string) {
    exists i | 0 <= i <= |s| - |sub| :: OccursAt(s, sub, i)
  }

  predicate OccursAt(s: string, sub: string, i: int) {
    0 <= i <= |s| - |sub| && s[i..i + |sub|] == sub
  }

  /** First index at or after i holding the delimiter d, or |s| when there is none. */
  function TokenEnd(s: string, d: char, i: nat): (r: nat)
    requires i <= |s|
    ensures i <= r <= |s|
    ensures forall j :: i <= j < r ==> s[j] != d
    ensures r < |s| ==> s[r] == d
    decreases |s| - i
  {
    if i == |s| || s[i] == d then i else TokenEnd(s, d, i + 1)
  }

  /** The tokens a java.util.StringTokenizer with the single delimiter d hands
      out: the maximal non-empty runs of characters other than d, in order. */
  function Tokens(s: string, d: char): (r: seq<string>)
    ensures forall k :: 0 <= k < |r| ==> r[k] != [] && d !in r[k]
    decreases |s|
  {
    if s == [] then []
    else if s[0] == d then Tokens(s[1..], d)
    else
      var n := TokenEnd(s, d, 0);
      [s[..n]] + Tokens(s[n..], d)
  }

  /** String.replace(a, b) for single characters. */
  function ReplaceChar(s: string, a: char, b: char): (r: string)
    ensures |r| == |s|
    ensures forall i :: 0 <= i < |s| && s[i] != a ==> r[i] == s[i]
    ensures forall i :: 0 <= i < |s| && s[i] == a ==> r[i] == b
    ensures a != b ==> a !in r
    ensures a !in s ==> r == s
  {
    seq(|s|, i requires 0 <= i < |s| => if s[i] == a then b else s[i])
  }

  /** ASCII case folding, the part of the database's case-insensitive match
      that this model keeps. */
  function Lower(c: char): char {
    if 'A' <= c <= 'Z' then (c as int + 32) as char else c
  }

  function LowerString(s: string): (r: string)
    ensures |r| == |s|
  {
    seq(|s|, i requires 0 <= i < |s| => Lower(s[i]))
  }

  /** The `...ContainsIgnoreCase` repository query condition. */
  predicate ContainsIgnoreCase(s: string, sub: string) {
    Contains(LowerString(s), LowerString(sub))
  }

  /** A non-empty run free of the delimiter, then the delimiter: the run is the
      first token and tokenizing goes on after the delimiter. */
  lemma TokensCons(x: string, d: char, rest: string)
    requires x != [] && d !in x
    ensures Tokens(x + [d] + rest, d) == [x] + Tokens(rest, d)
  {
    var s := x + [d] + rest;
    var n := TokenEnd(s, d, 0);
    assert s[|x|] == d;
    assert forall j :: 0 <= j < |x| ==> s[j] == x[j];
    assert n == |x|;
    assert s[..n] == x;
    assert s[n..] == [d] + rest;
    assert ([d] + rest)[1..] == rest;
  }

  /** A non-empty string free of the delimiter is one token. */
  lemma TokensSingle(x: string, d: char)
    requires x != [] && d !in x
    ensures Tokens(x, d) == [x]
  {
    var n := TokenEnd(x, d, 0);
    assert x[..n] == x;
    assert x[n..] == [];
  }
}
