/** UTF-8 (section 3 of RFC 3629) as `str.encode` and `bytes.decode(errors="ignore")`
    use it, and the byte-bounded preview of the prompt hook. */
module Utf8 {
  import opened Prelude

  type byte = b: int | 0 <= b < 256

  function EncodeChar(c: char): (bytes: seq<byte>)
    ensures 1 <= |bytes| <= 4
  {
    var n := c as int;
    if n < 0x80 then [n]
    else if n < 0x800 then [0xC0 + n / 0x40, 0x80 + n % 0x40]
    else
      var high := n / 0x40;
      if n < 0x10000 then [0xE0 + high / 0x40, 0x80 + high % 0x40, 0x80 + n % 0x40]
      else
        var higher := high / 0x40;
        [0xF0 + higher / 0x40, 0x80 + higher % 0x40, 0x80 + high % 0x40, 0x80 + n % 0x40]
  }

  function Encode(s: string): seq<byte> {
    if s == "" then [] else EncodeChar(s[0]) + Encode(s[1..])
  }

  predicate Continues(b: byte) { 0x80 <= b < 0xC0 }

  /** Bytes of the sequence a lead byte announces; 0 for a byte that starts none. */
  function Width(b: byte): nat {
    if b < 0x80 then 1
    else if 0xC2 <= b < 0xE0 then 2
    else if 0xE0 <= b < 0xF0 then 3
    else if 0xF0 <= b < 0xF5 then 4
    else 0
  }

  /** The second byte, with the ranges that exclude overlong forms, surrogates and
      values beyond U+10FFFF. */
  predicate Second(lead: byte, b: byte) {
    Continues(b) &&
    (lead == 0xE0 ==> b >= 0xA0) && (lead == 0xED ==> b < 0xA0) &&
    (lead == 0xF0 ==> b >= 0x90) && (lead == 0xF4 ==> b < 0x90)
  }

  /** How many bytes at the front are a sequence or the start of one. */
  function Matched(bytes: seq<byte>): (k: nat)
    requires bytes != [] && Width(bytes[0]) > 0
    ensures 1 <= k <= |bytes| && k <= Width(bytes[0])
    ensures k >= 2 ==> Second(bytes[0], bytes[1])
    ensures k >= 3 ==> Continues(bytes[2])
    ensures k >= 4 ==> Continues(bytes[3])
  {
    var w := Width(bytes[0]);
    if w < 2 || |bytes| < 2 || !Second(bytes[0], bytes[1]) then 1
    else if w < 3 || |bytes| < 3 || !Continues(bytes[2]) then 2
    else if w < 4 || |bytes| < 4 || !Continues(bytes[3]) then 3
    else 4
  }

  function Value(bytes: seq<byte>): (n: int)
    requires bytes != [] && Width(bytes[0]) > 0 && Matched(bytes) == Width(bytes[0])
    ensures 0 <= n < 0xD800 || 0xE000 <= n < 0x110000
  {
    var w := Width(bytes[0]);
    if w == 1 then bytes[0]
    else if w == 2 then Join(bytes[0] - 0xC0, bytes[1])
    else if w == 3 then Join(Join(bytes[0] - 0xE0, bytes[1]), bytes[2])
    else Join(Join(Join(bytes[0] - 0xF0, bytes[1]), bytes[2]), bytes[3])
  }

  /** Six more bits. */
  function Join(high: int, b: byte): int {
    high * 0x40 + b - 0x80
  }

  /** Decoding that skips what is not a complete sequence. */
  function Decode(bytes: seq<byte>): string {
    if bytes == [] then ""
    else if Width(bytes[0]) == 0 then Decode(bytes[1..])
    else
      var k := Matched(bytes);
      if k == Width(bytes[0]) then [Value(bytes) as char] + Decode(bytes[k..])
      else Decode(bytes[k..])
  }

  /** A body as the prompt hook attaches it, without the notice about the cut. */
  function Preview(body: string, limit: nat): string {
    var bytes := Encode(body);
    if |bytes| > limit then Decode(bytes[..limit]) else body
  }

  // ---- the decoder undoes the encoder -----------------------------------

  lemma JoinUndoes(n: int)
    requires n >= 0
    ensures Join(n / 0x40, 0x80 + n % 0x40) == n
  {
  }

  lemma EncodedShape(c: char)
    ensures var e := EncodeChar(c); Width(e[0]) == |e|
    ensures var e := EncodeChar(c); |e| >= 2 ==> Second(e[0], e[1])
    ensures var e := EncodeChar(c); forall i :: 2 <= i < |e| ==> Continues(e[i])
  {
    var n := c as int;
    var high := n / 0x40;
    var higher := high / 0x40;
    assert n == high * 0x40 + n % 0x40 && high == higher * 0x40 + high % 0x40;
  }

  lemma EncodedChar(c: char)
    ensures var e := EncodeChar(c);
            Width(e[0]) == |e| && Matched(e) == |e| && Value(e) == c as int
  {
    EncodedShape(c);
    var n := c as int;
    JoinUndoes(n);
    JoinUndoes(n / 0x40);
    JoinUndoes(n / 0x40 / 0x40);
  }

  /** A complete sequence followed by anything. */
  lemma DecodeWhole(c: char, rest: seq<byte>)
    ensures Decode(EncodeChar(c) + rest) == [c] + Decode(rest)
  {
    EncodedChar(c);
    var e := EncodeChar(c);
    var bytes := e + rest;
    assert forall i :: 0 <= i < |e| ==> bytes[i] == e[i];
    assert Matched(bytes) == |e| && Value(bytes) == Value(e);
    assert bytes[|e|..] == rest;
  }

  /** A sequence cut short at the end is dropped. */
  lemma DecodeCut(c: char, m: nat)
    requires m < |EncodeChar(c)|
    ensures Decode(EncodeChar(c)[..m]) == ""
  {
    if m > 0 {
      EncodedChar(c);
      var e := EncodeChar(c);
      var bytes := e[..m];
      assert forall i :: 0 <= i < m ==> bytes[i] == e[i];
      assert Matched(bytes) == m;
      assert bytes[m..] == [];
    }
  }

  /** How many characters of s fit into m bytes. */
  function Fitting(s: string, m: nat): (k: nat)
    ensures k <= |s|
  {
    if s == "" || |EncodeChar(s[0])| > m then 0 else 1 + Fitting(s[1..], m - |EncodeChar(s[0])|)
  }

  lemma {:induction false} DecodePrefix(s: string, m: nat)
    requires m <= |Encode(s)|
    ensures Decode(Encode(s)[..m]) == s[..Fitting(s, m)]
    decreases s
  {
    if s != "" {
      var e, rest := EncodeChar(s[0]), Encode(s[1..]);
      if |e| <= m {
        assert (e + rest)[..m] == e + rest[..m - |e|];
        DecodeWhole(s[0], rest[..m - |e|]);
        DecodePrefix(s[1..], m - |e|);
        assert [s[0]] + s[1..][..Fitting(s[1..], m - |e|)] == s[..Fitting(s, m)];
      } else {
        assert (e + rest)[..m] == e[..m];
        DecodeCut(s[0], m);
      }
    }
  }

  lemma {:induction false} FittingIsMaximal(s: string, m: nat, k: nat)
    requires k <= |s|
    ensures |Encode(s[..k])| <= m <==> k <= Fitting(s, m)
    decreases s
  {
    if s != "" && k > 0 {
      assert s[..k][0] == s[0] && s[..k][1..] == s[1..][..k - 1];
      var n := |EncodeChar(s[0])|;
      if n <= m {
        FittingIsMaximal(s[1..], m - n, k - 1);
      }
    }
  }

  lemma {:induction false} EncodeGrows(s: string, k: nat)
    requires k <= |s|
    ensures |Encode(s[..k])| <= |Encode(s)|
    decreases s
  {
    if k > 0 {
      assert s[..k][0] == s[0] && s[..k][1..] == s[1..][..k - 1];
      EncodeGrows(s[1..], k - 1);
    }
  }

  /** The preview is exactly the longest whole-character prefix of the body whose
      encoding fits the limit. */
  lemma PreviewIsLongestPrefix(body: string, limit: nat)
    ensures var p := Preview(body, limit);
            p <= body && |Encode(p)| <= limit &&
            forall k :: 0 <= k <= |body| && |Encode(body[..k])| <= limit ==> k <= |p|
  {
    var bytes := Encode(body);
    if |bytes| > limit {
      DecodePrefix(body, limit);
      FittingIsMaximal(body, limit, Fitting(body, limit));
      forall k | 0 <= k <= |body| && |Encode(body[..k])| <= limit
        ensures k <= Fitting(body, limit)
      {
        FittingIsMaximal(body, limit, k);
      }
    }
  }

  /** Without a cut the two functions are inverse. */
  lemma DecodeEncode(s: string)
    ensures Decode(Encode(s)) == s
  {
    DecodePrefix(s, |Encode(s)|);
    FittingIsMaximal(s, |Encode(s)|, |s|);
    assert Encode(s)[..|Encode(s)|] == Encode(s);
    assert s[..|s|] == s;
  }

  /** The examples of section 7 of RFC 3629, one for each length of a sequence. */
  lemma KnownEncodings()
    ensures EncodeChar('A') == [0x41]
    ensures EncodeChar('\U{0391}') == [0xCE, 0x91]
    ensures EncodeChar('\U{2262}') == [0xE2, 0x89, 0xA2]
    ensures EncodeChar('\U{233B4}') == [0xF0, 0xA3, 0x8E, 0xB4]
  {
  }
}
