/** UTF-8 as Rust's standard library sees it: `String::bytes` (the encoder)
    and `std::str::from_utf8` (the validating decoder, with its `Utf8Error`).
    A Rust `String` is modelled as a Dafny `string`, whose `char`s are exactly
    the Unicode scalar values. */
module Utf8 {
  import opened Wrappers
  import opened BoundedInts

  /** `std::str::Utf8Error`: how many leading bytes were valid, and the length
      of the invalid sequence that follows (`None` when the input ended in the
      middle of a sequence that could still have been valid). */
  datatype Utf8Error = Utf8Error(validUpTo: nat, errorLen: Option<nat>)

  predicate IsScalar(n: int) {
    0 <= n < 0xD800 || 0xE000 <= n < 0x11_0000
  }

  /** The UTF-8 form of one scalar value (section 3 of RFC 3629). */
  function EncodeChar(c: char): (r: seq<uint8>)
    ensures 1 <= |r| <= 4
  {
    var n := c as int;
    if n < 0x80 then [n]
    else if n < 0x800 then [0xC0 + n / 0x40, 0x80 + n % 0x40]
    else if n < 0x1_0000 then [0xE0 + n / 0x1000, 0x80 + (n / 0x40) % 0x40, 0x80 + n % 0x40]
    else [0xF0 + n / 0x4_0000, 0x80 + (n / 0x1000) % 0x40, 0x80 + (n / 0x40) % 0x40, 0x80 + n % 0x40]
  }

  /** `String::bytes`: the concatenated UTF-8 forms of the characters. */
  function Encode(s: string): (r: seq<uint8>)
    ensures |s| <= |r| <= 4 * |s|
  {
    if s == [] then [] else EncodeChar(s[0]) + Encode(s[1..])
  }

  /** Sequence length announced by a lead byte; 0 for a byte that cannot
      start a sequence (a continuation byte, 0xC0, 0xC1, 0xF5..0xFF). */
  function Width(lead: uint8): nat {
    if lead < 0x80 then 1
    else if 0xC2 <= lead <= 0xDF then 2
    else if 0xE0 <= lead <= 0xEF then 3
    else if 0xF0 <= lead <= 0xF4 then 4
    else 0
  }

  /** Range of the second byte allowed after `lead`: narrower after 0xE0
      (no overlong forms), 0xED (no surrogates), 0xF0 (no overlong forms)
      and 0xF4 (nothing above U+10FFFF). */
  function SecondLow(lead: uint8): uint8 {
    if lead == 0xE0 then 0xA0 else if lead == 0xF0 then 0x90 else 0x80
  }

  function SecondHigh(lead: uint8): uint8 {
    if lead == 0xED then 0x9F else if lead == 0xF4 then 0x8F else 0xBF
  }

  predicate IsContinuation(b: uint8) {
    0x80 <= b <= 0xBF
  }

  /** Scalar value carried by a two-, three- or four-byte sequence. */
  function Value2(b0: int, b1: int): int {
    (b0 - 0xC0) * 0x40 + (b1 - 0x80)
  }

  function Value3(b0: int, b1: int, b2: int): int {
    (b0 - 0xE0) * 0x1000 + (b1 - 0x80) * 0x40 + (b2 - 0x80)
  }

  function Value4(b0: int, b1: int, b2: int, b3: int): int {
    (b0 - 0xF0) * 0x4_0000 + (b1 - 0x80) * 0x1000 + (b2 - 0x80) * 0x40 + (b3 - 0x80)
  }

  /** Decodes the one character starting at `b[i]`, following the checks of
      Rust's validator in order; an error carries `i` as `valid_up_to`. */
  function DecodeCharAt(b: seq<uint8>, i: nat): (r: Result<(char, nat), Utf8Error>)
    requires i < |b|
    ensures r.Ok? ==> 1 <= r.value.1 <= 4 && i + r.value.1 <= |b|
    ensures r.Ok? ==> r.value.1 == Width(b[i])
    ensures r.Err? ==> r.error.validUpTo == i
  {
    var lead := b[i];
    var w := Width(lead);
    if w == 0 then Err(Utf8Error(i, Some(1)))
    else if w == 1 then Ok((lead as char, 1))
    else if i + 1 >= |b| then Err(Utf8Error(i, None))
    else if !(SecondLow(lead) <= b[i + 1] <= SecondHigh(lead)) then Err(Utf8Error(i, Some(1)))
    else if w == 2 then
      Ok((Value2(lead, b[i + 1]) as char, 2))
    else if i + 2 >= |b| then Err(Utf8Error(i, None))
    else if !IsContinuation(b[i + 2]) then Err(Utf8Error(i, Some(2)))
    else if w == 3 then
      Ok((Value3(lead, b[i + 1], b[i + 2]) as char, 3))
    else if i + 3 >= |b| then Err(Utf8Error(i, None))
    else if !IsContinuation(b[i + 3]) then Err(Utf8Error(i, Some(3)))
    else
      Ok((Value4(lead, b[i + 1], b[i + 2], b[i + 3]) as char, 4))
  }

  /** Decodes `b[i..]`; `valid_up_to` in an error counts from the start of `b`. */
  function DecodeFrom(b: seq<uint8>, i: nat): (r: Result<string, Utf8Error>)
    requires i <= |b|
    ensures r.Ok? ==> |r.value| <= |b| - i
    ensures r.Err? ==> i <= r.error.validUpTo < |b|
    decreases |b| - i
  {
    if i == |b| then Ok([])
    else
      match DecodeCharAt(b, i)
      case Err(e) => Err(e)
      case Ok((c, n)) =>
        match DecodeFrom(b, i + n)
        case Err(e) => Err(e)
        case Ok(s) => Ok([c] + s)
  }

  /** `std::str::from_utf8`. */
  function FromUtf8(b: seq<uint8>): (r: Result<string, Utf8Error>)
    ensures b == [] ==> r == Ok([])
    ensures r.Ok? ==> |r.value| <= |b|
    ensures r.Err? ==> r.error.validUpTo < |b|
  {
    DecodeFrom(b, 0)
  }

  // ---------------------------------------------------------------------
  // One character: decoding and encoding are inverse.

  lemma TwoByteForm(n: int)
    requires 0x80 <= n < 0x800
    ensures var b0, b1 := 0xC0 + n / 0x40, 0x80 + n % 0x40;
            0xC2 <= b0 <= 0xDF && 0x80 <= b1 <= 0xBF && Value2(b0, b1) == n
  {
  }

  lemma ThreeByteForm(n: int)
    requires 0x800 <= n < 0x1_0000 && IsScalar(n)
    ensures var b0, b1, b2 := 0xE0 + n / 0x1000, 0x80 + (n / 0x40) % 0x40, 0x80 + n % 0x40;
            0xE0 <= b0 <= 0xEF && SecondLow(b0) <= b1 <= SecondHigh(b0) && 0x80 <= b2 <= 0xBF
            && Value3(b0, b1, b2) == n
  {
    var q := n / 0x40;
    SplitSixBits(n, q, n % 0x40);
    SplitSixBits(q, n / 0x1000, q % 0x40);
  }

  lemma FourByteForm(n: int)
    requires 0x1_0000 <= n < 0x11_0000
    ensures var b0, b1, b2, b3 := 0xF0 + n / 0x4_0000, 0x80 + (n / 0x1000) % 0x40, 0x80 + (n / 0x40) % 0x40, 0x80 + n % 0x40;
            0xF0 <= b0 <= 0xF4 && SecondLow(b0) <= b1 <= SecondHigh(b0) && 0x80 <= b2 <= 0xBF && 0x80 <= b3 <= 0xBF
            && Value4(b0, b1, b2, b3) == n
  {
    var q := n / 0x40;
    var p := n / 0x1000;
    SplitSixBits(n, q, n % 0x40);
    SplitSixBits(q, p, q % 0x40);
    SplitSixBits(p, n / 0x4_0000, p % 0x40);
  }

  lemma DecodeEncodedChar(b: seq<uint8>, i: nat, c: char)
    requires i + |EncodeChar(c)| <= |b| && b[i..i + |EncodeChar(c)|] == EncodeChar(c)
    ensures DecodeCharAt(b, i) == Ok((c, |EncodeChar(c)|))
  {
    var n := c as int;
    var e := EncodeChar(c);
    forall k | 0 <= k < |e|
      ensures b[i + k] == e[k]
    {
      assert b[i..i + |e|][k] == b[i + k];
    }
    if n < 0x80 {
    } else if n < 0x800 {
      TwoByteForm(n);
    } else if n < 0x1_0000 {
      ThreeByteForm(n);
    } else {
      FourByteForm(n);
    }
  }

  lemma SplitSixBits(n: int, q: int, r: int)
    requires 0 <= r < 0x40 && n == q * 0x40 + r
    ensures n / 0x40 == q && n % 0x40 == r
  {
  }

  lemma EncodeDecodedChar(b: seq<uint8>, i: nat)
    requires i < |b| && DecodeCharAt(b, i).Ok?
    ensures var (c, n) := DecodeCharAt(b, i).value; b[i..i + n] == EncodeChar(c)
  {
    var (c, n) := DecodeCharAt(b, i).value;
    var v := c as int;
    if n == 1 {
      assert EncodeChar(c) == [b[i]];
    } else if n == 2 {
      var b0, b1 := b[i] as int, b[i + 1] as int;
      assert v == Value2(b0, b1);
      SplitSixBits(v, b0 - 0xC0, b1 - 0x80);
      assert EncodeChar(c) == [b[i], b[i + 1]];
    } else if n == 3 {
      var b0, b1, b2 := b[i] as int, b[i + 1] as int, b[i + 2] as int;
      assert v == Value3(b0, b1, b2);
      var q := (b0 - 0xE0) * 0x40 + (b1 - 0x80);
      SplitSixBits(v, q, b2 - 0x80);
      SplitSixBits(q, b0 - 0xE0, b1 - 0x80);
      assert v / 0x1000 == q / 0x40;
      assert EncodeChar(c) == [b[i], b[i + 1], b[i + 2]];
    } else {
      var b0, b1, b2, b3 := b[i] as int, b[i + 1] as int, b[i + 2] as int, b[i + 3] as int;
      assert v == Value4(b0, b1, b2, b3);
      var p := (b0 - 0xF0) * 0x40 + (b1 - 0x80);
      var q := p * 0x40 + (b2 - 0x80);
      SplitSixBits(v, q, b3 - 0x80);
      SplitSixBits(q, p, b2 - 0x80);
      SplitSixBits(p, b0 - 0xF0, b1 - 0x80);
      assert v / 0x1000 == p;
      assert v / 0x4_0000 == p / 0x40;
      assert EncodeChar(c) == [b[i], b[i + 1], b[i + 2], b[i + 3]];
    }
  }

  // ---------------------------------------------------------------------
  // Whole strings.

  lemma SplitSuffix(b: seq<uint8>, i: nat, e: seq<uint8>, t: seq<uint8>)
    requires i <= |b| && b[i..] == e + t
    ensures i + |e| <= |b| && b[i..i + |e|] == e && b[i + |e|..] == t
  {
    assert b[i..][..|e|] == e;
    assert b[i..][|e|..] == t;
  }

  lemma {:induction false} DecodeEncoded(b: seq<uint8>, i: nat, s: string)
    requires i <= |b| && b[i..] == Encode(s)
    ensures DecodeFrom(b, i) == Ok(s)
    decreases s
  {
    if s != [] {
      var e := EncodeChar(s[0]);
      SplitSuffix(b, i, e, Encode(s[1..]));
      DecodeEncodedChar(b, i, s[0]);
      DecodeEncoded(b, i + |e|, s[1..]);
      assert DecodeFrom(b, i) == Ok([s[0]] + s[1..]);
      assert [s[0]] + s[1..] == s;
    }
  }

  lemma {:induction false} EncodeDecoded(b: seq<uint8>, i: nat)
    requires i <= |b| && DecodeFrom(b, i).Ok?
    ensures Encode(DecodeFrom(b, i).value) == b[i..]
    decreases |b| - i
  {
    if i < |b| {
      var (c, n) := DecodeCharAt(b, i).value;
      EncodeDecodedChar(b, i);
      EncodeDecoded(b, i + n);
      var s := DecodeFrom(b, i + n).value;
      assert DecodeFrom(b, i).value == [c] + s;
      assert ([c] + s)[1..] == s;
      assert b[i..] == b[i..i + n] + b[i + n..];
    }
  }

  /** `from_utf8` accepts exactly the encodings of strings, and returns the
      string encoded: `from_utf8(s.bytes()) == Ok(s)` and
      `from_utf8(b) == Ok(s)` only when `s.bytes() == b`. */
  lemma FromUtf8Inverse(b: seq<uint8>, s: string)
    ensures FromUtf8(b) == Ok(s) <==> Encode(s) == b
  {
    if Encode(s) == b {
      DecodeEncoded(b, 0, s);
    }
    if FromUtf8(b) == Ok(s) {
      EncodeDecoded(b, 0);
    }
  }

  lemma RoundTrip(s: string)
    ensures FromUtf8(Encode(s)) == Ok(s)
  {
    FromUtf8Inverse(Encode(s), s);
  }

  /** ASCII text is its own encoding, one byte per character. */
  lemma {:induction false} EncodeAscii(s: string)
    requires forall k :: 0 <= k < |s| ==> s[k] < 0x80 as char
    ensures Encode(s) == seq(|s|, k requires 0 <= k < |s| => s[k] as int)
  {
    if s != [] {
      EncodeAscii(s[1..]);
    }
  }

  // ---------------------------------------------------------------------
  // What an error reports.

  lemma DecodeCharAtPrefix(b: seq<uint8>, i: nat, k: nat)
    requires i < |b| && DecodeCharAt(b, i).Ok? && i + DecodeCharAt(b, i).value.1 <= k <= |b|
    ensures DecodeCharAt(b[..k], i) == DecodeCharAt(b, i)
  {
    var n := DecodeCharAt(b, i).value.1;
    assert forall j :: i <= j < i + n ==> b[..k][j] == b[j];
  }

  lemma {:induction false} DecodeFromPrefix(b: seq<uint8>, i: nat)
    requires i <= |b| && DecodeFrom(b, i).Err?
    ensures i <= DecodeFrom(b, i).error.validUpTo < |b|
    ensures DecodeFrom(b[..DecodeFrom(b, i).error.validUpTo], i).Ok?
    decreases |b| - i
  {
    var v := DecodeFrom(b, i).error.validUpTo;
    match DecodeCharAt(b, i)
    case Err(e) =>
      assert v == i;
    case Ok((c, n)) =>
      DecodeFromPrefix(b, i + n);
      DecodeCharAtPrefix(b, i, v);
      var p := b[..v];
      assert p[..v] == p;
      assert DecodeFrom(p, i) == match DecodeFrom(p, i + n) case Err(e) => Err(e) case Ok(s) => Ok([c] + s);
      assert p == b[..v][..v];
      assert DecodeFrom(b[..v][..v], i + n).Ok?;
  }

  /** Rust's promise about `Utf8Error::valid_up_to`: it lies inside the input,
      and the bytes before it are valid UTF-8. */
  lemma ValidUpToIsValidPrefix(b: seq<uint8>)
    requires FromUtf8(b).Err?
    ensures FromUtf8(b).error.validUpTo < |b|
    ensures FromUtf8(b[..FromUtf8(b).error.validUpTo]).Ok?
  {
    DecodeFromPrefix(b, 0);
  }
}
