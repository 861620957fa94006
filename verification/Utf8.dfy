/** UTF-8 over Unicode scalar values (sections 3 and 4 of RFC 3629). */
module Utf8 {
  import opened Events

  type byte = b: int | 0 <= b < 256

  type Bytes = seq<byte>

  /** A continuation byte is 10xxxxxx. */
  predicate IsContinuation(b: byte) {
    b / 64 == 2
  }

  function EncodeChar(c: char): (r: Bytes)
    ensures 1 <= |r| <= 4
    ensures !IsContinuation(r[0]) && forall i :: 0 < i < |r| ==> IsContinuation(r[i])
  {
    var n := c as int;
    if n < 0x80 then [n]
    else if n < 0x800 then [0xC0 + n / 64, 0x80 + n % 64]
    else if n < 0x10000 then [0xE0 + n / 4096, 0x80 + n / 64 % 64, 0x80 + n % 64]
    else [0xF0 + n / 262144, 0x80 + n / 4096 % 64, 0x80 + n / 64 % 64, 0x80 + n % 64]
  }

  function Encode(s: string): Bytes {
    if s == "" then [] else EncodeChar(s[0]) + Encode(s[1..])
  }

  // --- Strict decoding: shortest forms only, no surrogates, nothing above U+10FFFF

  function Tail(b: byte): int {
    b - 0x80
  }

  /** The first character of `b` and its length in bytes. */
  function DecodeFirst(b: Bytes): Option<(char, nat)> {
    if b == [] then None
    else if b[0] < 0x80 then Some((b[0] as char, 1))
    else if 0xC2 <= b[0] < 0xE0 && |b| >= 2 && IsContinuation(b[1]) then
      Some((((b[0] - 0xC0) * 64 + Tail(b[1])) as char, 2))
    else if 0xE0 <= b[0] < 0xF0 && |b| >= 3 && IsContinuation(b[1]) && IsContinuation(b[2]) then
      var n := (b[0] - 0xE0) * 4096 + Tail(b[1]) * 64 + Tail(b[2]);
      if 0x800 <= n < 0xD800 || 0xE000 <= n then Some((n as char, 3)) else None
    else if 0xF0 <= b[0] < 0xF5 && |b| >= 4 && IsContinuation(b[1]) && IsContinuation(b[2]) && IsContinuation(b[3]) then
      var n := (b[0] - 0xF0) * 262144 + Tail(b[1]) * 4096 + Tail(b[2]) * 64 + Tail(b[3]);
      if 0x10000 <= n < 0x110000 then Some((n as char, 4)) else None
    else None
  }

  /** The text that `b` encodes, if it is well formed. */
  function Decode(b: Bytes): Option<string>
    decreases |b|
  {
    if b == [] then Some("")
    else
      match DecodeFirst(b)
      case None => None
      case Some((c, n)) =>
        if 0 < n <= |b| then
          match Decode(b[n..])
          case None => None
          case Some(rest) => Some([c] + rest)
        else None
  }

  lemma DecodeEncodedChar(c: char, rest: Bytes)
    ensures DecodeFirst(EncodeChar(c) + rest) == Some((c, |EncodeChar(c)|))
  {
    var n := c as int;
    var b := EncodeChar(c) + rest;
    assert forall i :: 0 <= i < |EncodeChar(c)| ==> b[i] == EncodeChar(c)[i];
    if n < 0x80 {
    } else if n < 0x800 {
      assert n == (n / 64) * 64 + n % 64;
    } else if n < 0x10000 {
      assert n / 64 == (n / 4096) * 64 + n / 64 % 64;
    } else {
      assert n / 64 == (n / 4096) * 64 + n / 64 % 64;
      assert n / 4096 == (n / 262144) * 64 + n / 4096 % 64;
    }
  }

  /** Decoding undoes encoding, for every text. */
  lemma {:induction false} DecodeEncode(s: string)
    ensures Decode(Encode(s)) == Some(s)
  {
    if s != "" {
      DecodeEncodedChar(s[0], Encode(s[1..]));
      DecodeEncode(s[1..]);
      var b, n := Encode(s), |EncodeChar(s[0])|;
      assert b[n..] == Encode(s[1..]);
      assert DecodeFirst(b) == Some((s[0], n));
      assert [s[0]] + s[1..] == s;
    }
  }

  lemma {:induction false} EncodeAppend(s: string, t: string)
    ensures Encode(s + t) == Encode(s) + Encode(t)
  {
    if s == "" {
      assert s + t == t;
    } else {
      EncodeAppend(s[1..], t);
      assert (s + t)[1..] == s[1..] + t;
    }
  }

  lemma Digit(a: nat, b: nat)
    requires b < 64
    ensures (a * 64 + b) / 64 == a && (a * 64 + b) % 64 == b
  {
  }

  lemma Digits(a: nat, b: nat, c: nat)
    requires b < 64 && c < 64
    ensures var n := a * 4096 + b * 64 + c;
            n / 4096 == a && n / 64 % 64 == b && n % 64 == c && n / 64 == a * 64 + b
  {
    Digit(a * 64 + b, c);
    Digit(a, b);
  }

  lemma MoreDigits(a: nat, b: nat, c: nat, d: nat)
    requires b < 64 && c < 64 && d < 64
    ensures var n := a * 262144 + b * 4096 + c * 64 + d;
            n / 262144 == a && n / 4096 % 64 == b && n / 64 % 64 == c && n % 64 == d
  {
    Digit((a * 64 + b) * 64 + c, d);
    Digit(a * 64 + b, c);
    Digit(a, b);
    var n := a * 262144 + b * 4096 + c * 64 + d;
    assert n == ((a * 64 + b) * 64 + c) * 64 + d;
    assert n / 64 == (a * 64 + b) * 64 + c;
    assert n / 4096 == n / 64 / 64;
    assert n / 262144 == n / 64 / 64 / 64;
  }

  lemma EncodeDecodedChar(b: Bytes)
    requires DecodeFirst(b).Some?
    ensures var (c, n) := DecodeFirst(b).value;
            n <= |b| && EncodeChar(c) == b[..n]
  {
    if b[0] < 0x80 {
    } else if b[0] < 0xE0 {
      Digit(b[0] - 0xC0, Tail(b[1]));
    } else if b[0] < 0xF0 {
      Digits(b[0] - 0xE0, Tail(b[1]), Tail(b[2]));
    } else {
      MoreDigits(b[0] - 0xF0, Tail(b[1]), Tail(b[2]), Tail(b[3]));
    }
  }

  /** Only well-formed bytes decode: encoding gives them back. */
  lemma {:induction false} EncodeDecode(b: Bytes)
    requires Decode(b).Some?
    ensures Encode(Decode(b).value) == b
    decreases |b|
  {
    if b != [] {
      var (c, n) := DecodeFirst(b).value;
      EncodeDecodedChar(b);
      EncodeDecode(b[n..]);
      assert b == b[..n] + b[n..];
    }
  }

  // --- Cutting bytes at a character boundary

  /** How many leading characters of `s` fit, whole, into `limit` bytes. */
  function Fitting(s: string, limit: nat): (k: nat)
    ensures k <= |s|
  {
    if s == "" || |EncodeChar(s[0])| > limit then 0
    else 1 + Fitting(s[1..], limit - |EncodeChar(s[0])|)
  }

  /** The characters that fit are the longest prefix that fits, and waste at most three bytes. */
  lemma {:induction false} FittingIsLongest(s: string, limit: nat)
    requires |Encode(s)| > limit
    ensures var k := Fitting(s, limit);
      && k < |s| && |Encode(s[..k])| <= limit <= |Encode(s[..k])| + 3
      && forall j :: k < j <= |s| ==> |Encode(s[..j])| > limit
  {
    var k, n := Fitting(s, limit), |EncodeChar(s[0])|;
    if n <= limit {
      FittingIsLongest(s[1..], limit - n);
    }
    forall j | 0 < j <= |s|
      ensures |Encode(s[..j])| == n + |Encode(s[1..][..j - 1])|
    {
      assert s[..j][1..] == s[1..][..j - 1];
    }
  }

  /** Of the first bytes of an encoding, exactly the character boundaries are no continuation bytes. */
  lemma {:induction false} BoundaryBytes(s: string, p: nat)
    requires p < |Encode(s)|
    ensures !IsContinuation(Encode(s)[p]) <==> p == |Encode(s[..Fitting(s, p)])|
    ensures |Encode(s[..Fitting(s, p)])| <= p
  {
    var n := |EncodeChar(s[0])|;
    if p >= n {
      BoundaryBytes(s[1..], p - n);
      var k := Fitting(s[1..], p - n);
      assert s[..k + 1][1..] == s[1..][..k];
      assert Encode(s)[p] == Encode(s[1..])[p - n];
    } else {
      assert Encode(s)[p] == EncodeChar(s[0])[p];
    }
  }

  /** A limit inside a character fits what the byte before it fits. */
  lemma {:induction false} FittingStepsBack(s: string, p: nat)
    requires 0 < p < |Encode(s)| && IsContinuation(Encode(s)[p])
    ensures Fitting(s, p) == Fitting(s, p - 1)
  {
    var n := |EncodeChar(s[0])|;
    if p > n {
      assert Encode(s)[p] == Encode(s[1..])[p - n];
      FittingStepsBack(s[1..], p - n);
    }
  }
}
