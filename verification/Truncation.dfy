/** Cutting a diagnostic text to a number of bytes without cutting a character (UTF-8, RFC 3629). */
module Truncation {

  type Byte = b: int | 0 <= b < 256

  /** A Unicode scalar value. */
  type Scalar = r: int | 0 <= r <= 0x10FFFF && !(0xD800 <= r <= 0xDFFF)

  /** The encoding of one character: the table in section 3 of RFC 3629. */
  function EncodeOne(r: Scalar): (bytes: seq<Byte>)
    ensures 1 <= |bytes| <= 4
  {
    if r < 0x80 then [r]
    else if r < 0x800 then [0xC0 + r / 64, 0x80 + r % 64]
    else if r < 0x10000 then [0xE0 + r / 64 / 64, 0x80 + r / 64 % 64, 0x80 + r % 64]
    else [0xF0 + r / 64 / 64 / 64, 0x80 + r / 64 / 64 % 64, 0x80 + r / 64 % 64, 0x80 + r % 64]
  }

  function Encode(text: seq<Scalar>): seq<Byte> {
    if |text| == 0 then [] else EncodeOne(text[0]) + Encode(text[1..])
  }

  predicate Tail(b: Byte) {
    0x80 <= b <= 0xBF
  }

  /**
   The length of the well-formed character that the bytes start with, or zero: the syntax in section 4 of
   RFC 3629.
   */
  function Width(bytes: seq<Byte>): (n: nat)
    ensures n <= |bytes| && n <= 4
  {
    if |bytes| >= 1 && bytes[0] < 0x80 then 1
    else if |bytes| >= 2 && 0xC2 <= bytes[0] <= 0xDF && Tail(bytes[1]) then 2
    else if |bytes| >= 3 && 0xE0 <= bytes[0] <= 0xEF && Tail(bytes[1]) && Tail(bytes[2]) &&
            (bytes[0] == 0xE0 ==> 0xA0 <= bytes[1]) && (bytes[0] == 0xED ==> bytes[1] <= 0x9F) then 3
    else if |bytes| >= 4 && 0xF0 <= bytes[0] <= 0xF4 && Tail(bytes[1]) && Tail(bytes[2]) && Tail(bytes[3]) &&
            (bytes[0] == 0xF0 ==> 0x90 <= bytes[1]) && (bytes[0] == 0xF4 ==> bytes[1] <= 0x8F) then 4
    else 0
  }

  predicate Valid(bytes: seq<Byte>) {
    |bytes| == 0 || (Width(bytes) > 0 && Valid(bytes[Width(bytes)..]))
  }

  // ---------------------------------------------------------------- valid bytes are encoded texts

  lemma WidthOfEncoded(r: Scalar, rest: seq<Byte>)
    ensures Width(EncodeOne(r) + rest) == |EncodeOne(r)|
  {
  }

  function Shift(high: int, low: Byte): int {
    high * 64 + low as int - 0x80
  }

  lemma Shifted(high: int, low: Byte)
    requires Tail(low)
    ensures Shift(high, low) / 64 == high && 0x80 + Shift(high, low) % 64 == low as int
  {
  }

  lemma Unshifted(r: nat)
    ensures Shift(r / 64, 0x80 + r % 64) == r
  {
  }

  /** The character that well-formed bytes start with. */
  function DecodeOne(bytes: seq<Byte>): (r: int)
    requires Width(bytes) > 0
  {
    var lead: int := bytes[0];
    var n := Width(bytes);
    if n == 1 then lead
    else if n == 2 then Shift(lead - 0xC0, bytes[1])
    else if n == 3 then Shift(Shift(lead - 0xE0, bytes[1]), bytes[2])
    else Shift(Shift(Shift(lead - 0xF0, bytes[1]), bytes[2]), bytes[3])
  }

  lemma DecodesScalar(bytes: seq<Byte>)
    requires Width(bytes) > 0
    ensures var r := DecodeOne(bytes); 0 <= r <= 0x10FFFF && !(0xD800 <= r <= 0xDFFF)
    ensures var r, n := DecodeOne(bytes), Width(bytes);
            (n == 1 <==> r < 0x80) && (n <= 2 <==> r < 0x800) && (n <= 3 <==> r < 0x10000)
  {
  }

  lemma EncodeDecoded(bytes: seq<Byte>)
    requires Width(bytes) > 0
    ensures var r := DecodeOne(bytes);
            0 <= r <= 0x10FFFF && !(0xD800 <= r <= 0xDFFF) && EncodeOne(r) == bytes[..Width(bytes)]
  {
    DecodesScalar(bytes);
    var lead: int := bytes[0];
    var n := Width(bytes);
    hide Shift;
    if n == 2 {
      Shifted(lead - 0xC0, bytes[1]);
    } else if n == 3 {
      Shifted(lead - 0xE0, bytes[1]);
      Shifted(Shift(lead - 0xE0, bytes[1]), bytes[2]);
    } else if n == 4 {
      Shifted(lead - 0xF0, bytes[1]);
      Shifted(Shift(lead - 0xF0, bytes[1]), bytes[2]);
      Shifted(Shift(Shift(lead - 0xF0, bytes[1]), bytes[2]), bytes[3]);
    }
  }

  lemma DecodeEncoded(r: Scalar, rest: seq<Byte>)
    ensures Width(EncodeOne(r) + rest) == |EncodeOne(r)| && DecodeOne(EncodeOne(r) + rest) == r
  {
    WidthOfEncoded(r, rest);
    hide Width, Shift;
    Unshifted(r);
    Unshifted(r / 64);
    Unshifted(r / 64 / 64);
  }

  lemma {:induction false} EncodedIsValid(text: seq<Scalar>)
    ensures Valid(Encode(text))
  {
    if |text| > 0 {
      EncodedIsValid(text[1..]);
      WidthOfEncoded(text[0], Encode(text[1..]));
      assert Encode(text)[|EncodeOne(text[0])|..] == Encode(text[1..]);
    }
  }

  lemma {:induction false} ValidIsEncoded(bytes: seq<Byte>) returns (text: seq<Scalar>)
    requires Valid(bytes)
    ensures Encode(text) == bytes
  {
    hide EncodeOne, DecodeOne, Width;
    if |bytes| == 0 {
      text := [];
    } else {
      var rest := ValidIsEncoded(bytes[Width(bytes)..]);
      EncodeDecoded(bytes);
      text := [DecodeOne(bytes)] + rest;
      assert text[1..] == rest;
    }
  }

  /** A text is determined by the start of any bytes it is encoded at the start of. */
  lemma {:induction false} PrefixDecodes(some: seq<Scalar>, all: seq<Scalar>)
    requires Encode(some) <= Encode(all)
    ensures some <= all
  {
    hide EncodeOne, DecodeOne, Width;
    if |some| > 0 {
      var head, rest := EncodeOne(some[0]), Encode(some[1..]);
      if |all| > 0 {
        var more := Encode(all)[|Encode(some)|..];
        assert Encode(all) == head + (rest + more);
        DecodeEncoded(some[0], rest + more);
        DecodeEncoded(all[0], Encode(all[1..]));
        assert Encode(all[1..]) == Encode(all)[|head|..] == rest + more;
        PrefixDecodes(some[1..], all[1..]);
        assert some == [some[0]] + some[1..] && all == [all[0]] + all[1..];
      }
    }
  }

  // ---------------------------------------------------------------- cutting

  lemma EncodeNothing()
    ensures Encode([]) == []
  {
  }

  lemma EncodeHead(r: Scalar, text: seq<Scalar>)
    ensures Encode([r] + text) == EncodeOne(r) + Encode(text)
  {
    hide EncodeOne;
    assert ([r] + text)[1..] == text;
  }

  lemma Associative<T>(a: seq<T>, b: seq<T>, c: seq<T>)
    ensures a + (b + c) == (a + b) + c
  {
  }

  lemma {:induction false} EncodeJoins(a: seq<Scalar>, b: seq<Scalar>)
    ensures Encode(a + b) == Encode(a) + Encode(b)
  {
    hide EncodeOne, Encode;
    if |a| == 0 {
      EncodeNothing();
      assert a == [] && a + b == b;
    } else {
      var head, tail := a[0], a[1..];
      EncodeJoins(tail, b);
      EncodeHead(head, tail + b);
      EncodeHead(head, tail);
      Associative([head], tail, b);
      Associative(EncodeOne(head), Encode(tail), Encode(b));
      assert a == [head] + tail;
    }
  }

  lemma PrefixEncodes(text: seq<Scalar>, m: nat)
    requires m <= |text|
    ensures Encode(text[..m]) <= Encode(text)
  {
    hide EncodeOne, Encode;
    var front, back := text[..m], text[m..];
    EncodeJoins(front, back);
    assert text == front + back;
  }

  /** How many characters fit into so many bytes. */
  function Fit(text: seq<Scalar>, limit: nat): (m: nat)
    ensures m <= |text|
  {
    if |text| == 0 || |EncodeOne(text[0])| > limit then 0 else 1 + Fit(text[1..], limit - |EncodeOne(text[0])|)
  }

  /** `Fit` is the longest prefix that fits. */
  lemma {:induction false} FitIsLongest(text: seq<Scalar>, limit: nat, m: nat)
    requires m <= |text|
    ensures |Encode(text[..m])| <= limit <==> m <= Fit(text, limit)
  {
    if m > 0 {
      assert text[..m][1..] == text[1..][..m - 1];
      if |EncodeOne(text[0])| <= limit {
        FitIsLongest(text[1..], limit - |EncodeOne(text[0])|, m - 1);
      }
    }
  }

  /** A cut of an encoded text is valid exactly when it falls between two characters. */
  lemma CutIsValid(text: seq<Scalar>, k: nat)
    requires k <= |Encode(text)|
    ensures Valid(Encode(text)[..k]) <==> exists m :: 0 <= m <= |text| && |Encode(text[..m])| == k
  {
    if Valid(Encode(text)[..k]) {
      var some := ValidIsEncoded(Encode(text)[..k]);
      PrefixDecodes(some, text);
      assert text[..|some|] == some;
    }
    if m :| 0 <= m <= |text| && |Encode(text[..m])| == k {
      PrefixEncodes(text, m);
      EncodedIsValid(text[..m]);
      assert Encode(text)[..k] == Encode(text[..m]);
    }
  }

  /** The last cut between two characters is at most three bytes before any limit inside the text. */
  lemma {:induction false} FitIsClose(text: seq<Scalar>, limit: nat)
    requires limit <= |Encode(text)|
    ensures limit - 3 <= |Encode(text[..Fit(text, limit)])| <= limit
  {
    if |text| > 0 && |EncodeOne(text[0])| <= limit {
      var n := |EncodeOne(text[0])|;
      FitIsClose(text[1..], limit - n);
      assert text[..Fit(text, limit)][1..] == text[1..][..Fit(text[1..], limit - n)];
    }
  }

  // ---------------------------------------------------------------- trimming

  predicate IsSpace(r: Scalar) {
    0x09 <= r <= 0x0D || r == 0x20 || r == 0x85 || r == 0xA0 || r == 0x1680 || 0x2000 <= r <= 0x200A ||
    r == 0x2028 || r == 0x2029 || r == 0x202F || r == 0x205F || r == 0x3000
  }

  predicate AllSpace(text: seq<Scalar>) {
    forall i :: 0 <= i < |text| ==> IsSpace(text[i])
  }

  function TrimLeft(text: seq<Scalar>): seq<Scalar> {
    if |text| > 0 && IsSpace(text[0]) then TrimLeft(text[1..]) else text
  }

  function TrimRight(text: seq<Scalar>): seq<Scalar> {
    if |text| > 0 && IsSpace(text[|text| - 1]) then TrimRight(text[..|text| - 1]) else text
  }

  function Trim(text: seq<Scalar>): seq<Scalar> {
    TrimRight(TrimLeft(text))
  }

  lemma {:induction false} LeftSpaces(text: seq<Scalar>) returns (spaces: seq<Scalar>)
    ensures text == spaces + TrimLeft(text) && AllSpace(spaces)
    ensures |TrimLeft(text)| > 0 ==> !IsSpace(TrimLeft(text)[0])
  {
    if |text| > 0 && IsSpace(text[0]) {
      var rest := LeftSpaces(text[1..]);
      spaces := [text[0]] + rest;
    } else {
      spaces := [];
    }
  }

  lemma {:induction false} RightSpaces(text: seq<Scalar>) returns (spaces: seq<Scalar>)
    ensures text == TrimRight(text) + spaces && AllSpace(spaces)
    ensures |TrimRight(text)| > 0 ==> !IsSpace(TrimRight(text)[|TrimRight(text)| - 1])
  {
    if |text| > 0 && IsSpace(text[|text| - 1]) {
      var rest := RightSpaces(text[..|text| - 1]);
      spaces := rest + [text[|text| - 1]];
    } else {
      spaces := [];
    }
  }

  /** Trimming removes exactly the white space at both ends. */
  lemma TrimRemovesSpace(text: seq<Scalar>) returns (before: seq<Scalar>, after: seq<Scalar>)
    ensures text == before + Trim(text) + after && AllSpace(before) && AllSpace(after)
    ensures |Trim(text)| > 0 ==> !IsSpace(Trim(text)[0]) && !IsSpace(Trim(text)[|Trim(text)| - 1])
  {
    before := LeftSpaces(text);
    after := RightSpaces(TrimLeft(text));
    hide TrimLeft, TrimRight;
    assert |Trim(text)| > 0 ==> Trim(text)[0] == TrimLeft(text)[0];
  }

  // ---------------------------------------------------------------- the function

  /**
   The result is the longest prefix of whole characters of the trimmed text that fits in `limit` bytes;
   at most three bytes of the limit go unused by a text that is longer.
   */
  method Bounded(text: seq<Scalar>, limit: nat) returns (value: seq<Byte>)
    ensures value == Encode(Trim(text)[..Fit(Trim(text), limit)]) && |value| <= limit
    ensures |Encode(Trim(text))| <= limit ==> value == Encode(Trim(text))
    ensures |Encode(Trim(text))| > limit ==> |value| >= limit - 3
  {
    ghost var trimmed := Trim(text);
    ghost var m := Fit(trimmed, limit);
    value := Encode(Trim(text));
    FitIsLongest(trimmed, limit, |trimmed|);
    FitIsLongest(trimmed, limit, m);
    assert trimmed[..|trimmed|] == trimmed;
    if |value| <= limit {
      return;
    }
    FitIsClose(trimmed, limit);
    PrefixEncodes(trimmed, m);
    value := value[..limit];
    while !Valid(value)
      invariant |Encode(trimmed[..m])| <= |value| <= limit && value == Encode(trimmed)[..|value|]
      decreases |value|
    {
      CutIsValid(trimmed, |value|);
      value := value[..|value| - 1];
    }
    CutIsValid(trimmed, |value|);
    ghost var k :| 0 <= k <= |trimmed| && |Encode(trimmed[..k])| == |value|;
    FitIsLongest(trimmed, limit, k);
    assert trimmed[..m][..k] == trimmed[..k];
    PrefixEncodes(trimmed[..m], k);
  }
}
