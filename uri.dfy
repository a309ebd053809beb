/**
 * encodeURIComponent and decodeURIComponent as section 19.2.6 of ECMA-262
 * defines them (the Encode and Decode operations with the unreserved set of
 * a URI component and an empty reserved set). The content script embeds the
 * encoded selection in the Retry button and decodes it again on Retry.
 * Strings here are sequences of Unicode scalar values, so the URIError that
 * encodeURIComponent raises for a lone surrogate cannot arise.
 */
module Uri {
  import opened Basics

  type Byte = b: int | 0 <= b < 256

  /** Characters encodeURIComponent leaves unescaped: letters, digits and -_.!~*'() */
  predicate IsUnescaped(c: char) {
    ('a' <= c <= 'z') || ('A' <= c <= 'Z') || ('0' <= c <= '9') ||
    c == '-' || c == '_' || c == '.' || c == '!' || c == '~' || c == '*' ||
    c == '\'' || c == '(' || c == ')'
  }

  /** The UTF-8 encoding of one code point. */
  function Utf8(c: char): (bytes: seq<Byte>)
    ensures 1 <= |bytes| <= 4
  {
    var cp := c as int;
    if cp < 0x80 then [cp]
    else if cp < 0x800 then [0xC0 + cp / 64, 0x80 + cp % 64]
    else if cp < 0x1_0000 then [0xE0 + cp / 4096, 0x80 + (cp / 64) % 64, 0x80 + cp % 64]
    else [0xF0 + cp / 262144, 0x80 + (cp / 4096) % 64, 0x80 + (cp / 64) % 64, 0x80 + cp % 64]
  }

  /** Upper-case hexadecimal digit, as encodeURIComponent writes it. */
  function HexDigit(d: nat): char
    requires d < 16
  {
    if d < 10 then ('0' as int + d) as char else ('A' as int + d - 10) as char
  }

  /** The value of a hexadecimal digit of either case. */
  function HexValue(c: char): Option<nat> {
    if '0' <= c <= '9' then Some(c as int - '0' as int)
    else if 'A' <= c <= 'F' then Some(c as int - 'A' as int + 10)
    else if 'a' <= c <= 'f' then Some(c as int - 'a' as int + 10)
    else None
  }

  /** "%XY" for one byte. */
  function Escape(b: Byte): string {
    ['%', HexDigit(b / 16), HexDigit(b % 16)]
  }

  function EscapeAll(bytes: seq<Byte>): (s: string)
    ensures |s| == 3 * |bytes|
  {
    if bytes == [] then [] else Escape(bytes[0]) + EscapeAll(bytes[1..])
  }

  function EncodeChar(c: char): string {
    if IsUnescaped(c) then [c] else EscapeAll(Utf8(c))
  }

  function EncodeURIComponent(s: string): (r: string)
  {
    if s == [] then [] else EncodeChar(s[0]) + EncodeURIComponent(s[1..])
  }

  /** The byte written by an escape "%XY" at the start of s, if s starts with one. */
  function EscapedByte(s: string): Option<Byte> {
    if |s| < 3 || s[0] != '%' then None
    else match (HexValue(s[1]), HexValue(s[2]))
      case (Some(hi), Some(lo)) => Some(16 * hi + lo)
      case _ => None
  }

  /** Number of bytes of a UTF-8 sequence announced by its leading byte; 0 when
      the byte cannot lead a multi-byte sequence (10xxxxxx or 11111xxx). */
  function SequenceLength(b: Byte): nat {
    if 0xC0 <= b < 0xE0 then 2
    else if 0xE0 <= b < 0xF0 then 3
    else if 0xF0 <= b < 0xF8 then 4
    else 0
  }

  /** The payload bits of a leading byte of an n-byte sequence. */
  function LeadPayload(b: Byte, n: nat): int
    requires 2 <= n <= 4
  {
    if n == 2 then b - 0xC0 else if n == 3 then b - 0xE0 else b - 0xF0
  }

  /** Reads `count` escaped continuation bytes (10xxxxxx) from the start of s,
      shifting their payload into acc. */
  function Continuation(s: string, count: nat, acc: int): (r: Option<int>)
    ensures r.Some? ==> |s| >= 3 * count
  {
    if count == 0 then Some(acc)
    else match EscapedByte(s)
      case None => None
      case Some(b) =>
        if 0x80 <= b < 0xC0 then Continuation(s[3..], count - 1, 64 * acc + (b - 0x80)) else None
  }

  /** Whether cp is the code point of a well-formed (shortest, non-surrogate,
      in range) UTF-8 sequence of n bytes. */
  predicate WellFormed(cp: int, n: nat) {
    if n == 2 then 0x80 <= cp < 0x800
    else if n == 3 then 0x800 <= cp < 0x1_0000 && !(0xD800 <= cp < 0xE000)
    else n == 4 && 0x1_0000 <= cp < 0x11_0000
  }

  /** decodeURIComponent; None stands for the URIError it throws. */
  function DecodeURIComponent(s: string): (r: Option<string>)
    decreases |s|
  {
    if s == [] then Some([])
    else if s[0] != '%' then
      match DecodeURIComponent(s[1..])
      case None => None
      case Some(rest) => Some([s[0]] + rest)
    else
      match EscapedByte(s)
      case None => None
      case Some(b) =>
        if b < 0x80 then
          match DecodeURIComponent(s[3..])
          case None => None
          case Some(rest) => Some([b as char] + rest)
        else
          var n := SequenceLength(b);
          if n == 0 then None
          else
            match Continuation(s[3..], n - 1, LeadPayload(b, n))
            case None => None
            case Some(cp) =>
              if !WellFormed(cp, n) then None
              else
                match DecodeURIComponent(s[3 * n..])
                case None => None
                case Some(rest) => Some([cp as char] + rest)
  }

  lemma HexRoundTrip(d: nat)
    requires d < 16
    ensures HexValue(HexDigit(d)) == Some(d)
  {
  }

  lemma {:induction false} EscapedByteOfEscape(b: Byte, rest: string)
    ensures EscapedByte(Escape(b) + rest) == Some(b)
  {
    var s := Escape(b) + rest;
    HexRoundTrip(b / 16);
    HexRoundTrip(b % 16);
    assert s[0] == '%' && s[1] == HexDigit(b / 16) && s[2] == HexDigit(b % 16);
  }

  /** The code point bits carried by continuation bytes, shifted into acc. */
  function Payload(bytes: seq<Byte>, acc: int): int {
    if bytes == [] then acc else Payload(bytes[1..], 64 * acc + (bytes[0] as int - 0x80))
  }

  predicate AllContinuation(bytes: seq<Byte>) {
    forall i :: 0 <= i < |bytes| ==> 0x80 <= bytes[i] < 0xC0
  }

  /** Reading back escaped continuation bytes shifts their payloads into acc. */
  lemma {:induction false} ContinuationOfEscapes(bytes: seq<Byte>, rest: string, acc: int)
    requires AllContinuation(bytes)
    ensures Continuation(EscapeAll(bytes) + rest, |bytes|, acc) == Some(Payload(bytes, acc))
  {
    if bytes != [] {
      var tail := EscapeAll(bytes[1..]) + rest;
      assert EscapeAll(bytes) + rest == Escape(bytes[0]) + tail;
      EscapedByteOfEscape(bytes[0], tail);
      assert (Escape(bytes[0]) + tail)[3..] == tail;
      ContinuationOfEscapes(bytes[1..], rest, 64 * acc + (bytes[0] as int - 0x80));
    }
  }

  /** The steps shared by every multi-byte case of DecodeEscapedChar. */
  lemma DecodeMultiByte(c: char, rest: string, n: nat)
    requires 2 <= n <= 4 && |Utf8(c)| == n
    requires SequenceLength(Utf8(c)[0]) == n
    requires AllContinuation(Utf8(c)[1..])
    requires Payload(Utf8(c)[1..], LeadPayload(Utf8(c)[0], n)) == c as int
    requires WellFormed(c as int, n)
    ensures DecodeURIComponent(EscapeAll(Utf8(c)) + rest) ==
            (match DecodeURIComponent(rest) case None => None case Some(r) => Some([c] + r))
  {
    var bytes := Utf8(c);
    var s := EscapeAll(bytes) + rest;
    assert s == Escape(bytes[0]) + (EscapeAll(bytes[1..]) + rest);
    EscapedByteOfEscape(bytes[0], EscapeAll(bytes[1..]) + rest);
    assert s[3..] == EscapeAll(bytes[1..]) + rest;
    ContinuationOfEscapes(bytes[1..], rest, LeadPayload(bytes[0], n));
    assert s[3 * n..] == rest;
    assert (c as int) as char == c;
  }

  /** Decoding the escaped UTF-8 bytes of one code point gives that code point back. */
  lemma DecodeEscapedChar(c: char, rest: string)
    ensures DecodeURIComponent(EscapeAll(Utf8(c)) + rest) ==
            (match DecodeURIComponent(rest) case None => None case Some(r) => Some([c] + r))
  {
    var cp := c as int;
    if cp < 0x80 {
      DecodeEscapedOneByte(c, rest);
    } else if cp < 0x800 {
      DecodeEscapedTwoBytes(c, rest);
    } else if cp < 0x1_0000 {
      DecodeEscapedThreeBytes(c, rest);
    } else {
      DecodeEscapedFourBytes(c, rest);
    }
  }

  lemma DecodeEscapedOneByte(c: char, rest: string)
    requires c as int < 0x80
    ensures DecodeURIComponent(EscapeAll(Utf8(c)) + rest) ==
            (match DecodeURIComponent(rest) case None => None case Some(r) => Some([c] + r))
  {
    var bytes := Utf8(c);
    var s := EscapeAll(bytes) + rest;
    assert s == Escape(bytes[0]) + rest;
    EscapedByteOfEscape(bytes[0], rest);
    assert s[3..] == rest;
    assert (c as int as char) == c;
  }

  lemma DecodeEscapedTwoBytes(c: char, rest: string)
    requires 0x80 <= c as int < 0x800
    ensures DecodeURIComponent(EscapeAll(Utf8(c)) + rest) ==
            (match DecodeURIComponent(rest) case None => None case Some(r) => Some([c] + r))
  {
    var cp := c as int;
    assert Utf8(c)[1..] == [0x80 + cp % 64];
    assert 64 * (cp / 64) + cp % 64 == cp;
    DecodeMultiByte(c, rest, 2);
  }

  lemma DecodeEscapedThreeBytes(c: char, rest: string)
    requires 0x800 <= c as int < 0x1_0000
    ensures DecodeURIComponent(EscapeAll(Utf8(c)) + rest) ==
            (match DecodeURIComponent(rest) case None => None case Some(r) => Some([c] + r))
  {
    var cp := c as int;
    var bytes := Utf8(c);
    assert bytes[1..] == [0x80 + (cp / 64) % 64, 0x80 + cp % 64];
    assert [0x80 + (cp / 64) % 64, 0x80 + cp % 64][1..] == [0x80 + cp % 64];
    assert 64 * (cp / 4096) + (cp / 64) % 64 == cp / 64;
    assert 64 * (cp / 64) + cp % 64 == cp;
    var lead := LeadPayload(bytes[0], 3);
    assert lead == cp / 4096;
    var a1 := 64 * lead + (cp / 64) % 64;
    assert Payload(bytes[1..], lead) == Payload([0x80 + cp % 64], a1);
    assert [0x80 + cp % 64][1..] == [];
    assert Payload([0x80 + cp % 64], a1) == 64 * a1 + cp % 64;
    DecodeMultiByte(c, rest, 3);
  }

  lemma DecodeEscapedFourBytes(c: char, rest: string)
    requires 0x1_0000 <= c as int
    ensures DecodeURIComponent(EscapeAll(Utf8(c)) + rest) ==
            (match DecodeURIComponent(rest) case None => None case Some(r) => Some([c] + r))
  {
    var cp := c as int;
    var bytes := Utf8(c);
    var tail := [0x80 + (cp / 4096) % 64, 0x80 + (cp / 64) % 64, 0x80 + cp % 64];
    assert bytes[1..] == tail;
    assert tail[1..] == [0x80 + (cp / 64) % 64, 0x80 + cp % 64];
    assert tail[1..][1..] == [0x80 + cp % 64];
    assert 64 * (cp / 262144) + (cp / 4096) % 64 == cp / 4096;
    assert 64 * (cp / 4096) + (cp / 64) % 64 == cp / 64;
    assert 64 * (cp / 64) + cp % 64 == cp;
    var lead := LeadPayload(bytes[0], 4);
    assert lead == cp / 262144;
    var a1 := 64 * lead + (cp / 4096) % 64;
    var a2 := 64 * a1 + (cp / 64) % 64;
    assert Payload(tail, lead) == Payload(tail[1..], a1);
    assert Payload(tail[1..], a1) == Payload(tail[1..][1..], a2);
    assert tail[1..][1..][1..] == [];
    assert Payload(tail[1..][1..], a2) == 64 * a2 + cp % 64;
    DecodeMultiByte(c, rest, 4);
  }

  /** decodeURIComponent(encodeURIComponent(s)) is s: the Retry action gets back
      exactly the text that was selected. */
  lemma {:induction false} DecodeEncode(s: string)
    ensures DecodeURIComponent(EncodeURIComponent(s)) == Some(s)
  {
    if s != [] {
      var rest := EncodeURIComponent(s[1..]);
      DecodeEncode(s[1..]);
      if IsUnescaped(s[0]) {
        var e := [s[0]] + rest;
        assert e[1..] == rest;
      } else {
        DecodeEscapedChar(s[0], rest);
      }
      assert [s[0]] + s[1..] == s;
    }
  }

  /** The apostrophe is among the characters left unescaped, so it survives encoding. */
  lemma {:induction false} ApostropheSurvivesEncoding(s: string)
    ensures '\'' in s <==> '\'' in EncodeURIComponent(s)
  {
    if s != [] {
      ApostropheSurvivesEncoding(s[1..]);
      assert s == [s[0]] + s[1..];
      if !IsUnescaped(s[0]) {
        EscapeAllHasNoApostrophe(Utf8(s[0]));
      }
    }
  }

  lemma {:induction false} EscapeAllHasNoApostrophe(bytes: seq<Byte>)
    ensures '\'' !in EscapeAll(bytes)
  {
    if bytes != [] {
      EscapeAllHasNoApostrophe(bytes[1..]);
    }
  }
}
