/**
 Percent encoding and decoding of byte strings (section 2.1 of RFC 3986), written as strings of
 characters below 256.
 */
module Percent {
  import opened Bytes

  /** The characters of a std::string are bytes. */
  predicate IsByteString(s: string) { forall i :: 0 <= i < |s| ==> s[i] as int < 256 }

  predicate Digit(c: char) { '0' <= c <= '9' }

  /** The characters that stand for themselves. */
  predicate Unreserved(c: char) {
    Digit(c) || 'A' <= c <= 'Z' || 'a' <= c <= 'z' || c == '-' || c == '.' || c == '_' || c == '~'
  }

  const HEX: string := "0123456789ABCDEF"

  function EncodeChar(c: char): (s: string)
    requires c as int < 256
  {
    if Unreserved(c) then [c] else ['%', HEX[c as int / 16], HEX[c as int % 16]]
  }

  /** What encode returns. */
  function Encoded(s: string): string
    requires IsByteString(s)
  {
    if |s| == 0 then [] else EncodeChar(s[0]) + Encoded(s[1..])
  }

  /** Percent::encode. */
  method Encode(value: string) returns (result: string)
    requires IsByteString(value)
    ensures result == Encoded(value)
  {
    hide EncodeChar;
    result := [];
    var i := 0;
    while i < |value|
      invariant 0 <= i <= |value|
      invariant result + Encoded(value[i..]) == Encoded(value)
    {
      assert value[i..][1..] == value[i + 1..];
      var chr := value[i];
      EncodeCharIs(chr);
      if !('0' <= chr <= '9' || 'A' <= chr <= 'Z' || 'a' <= chr <= 'z' || chr == '-' || chr == '.' || chr == '_' ||
           chr == '~') {
        result := result + "%" + ["0123456789ABCDEF"[chr as int / 16]] + ["0123456789ABCDEF"[chr as int % 16]];
      } else {
        result := result + [chr];
      }
      i := i + 1;
    }
    assert value[i..] == [];
  }

  /**
   A letter, a digit, or one of -._~ stands for itself; any other byte is two upper-case hexadecimal
   digits that give its value.
   */
  lemma EncodeCharIs(c: char)
    requires c as int < 256
    ensures var s := EncodeChar(c);
            if '0' <= c <= '9' || 'A' <= c <= 'Z' || 'a' <= c <= 'z' || c == '-' || c == '.' || c == '_' || c == '~'
            then s == [c]
            else s == ['%', "0123456789ABCDEF"[c as int / 16], "0123456789ABCDEF"[c as int % 16]]
  {}

  predicate AllUnreserved(s: string) { forall i :: 0 <= i < |s| ==> Unreserved(s[i]) }

  /** A string is its own encoding if and only if all its characters are unreserved (section 2.3 of RFC 3986). */
  lemma {:induction false} OwnEncodingWhen(s: string)
    requires IsByteString(s)
    ensures |Encoded(s)| >= |s| && (Encoded(s) == s <==> AllUnreserved(s))
  {
    if s != "" {
      OwnEncodingWhen(s[1..]);
      assert s == [s[0]] + s[1..];
    }
  }

  // ---- strtol to the base 16 ----

  function HexDigit(c: char): (d: Option<nat>)
    ensures d.Some? ==> d.value < 16
  {
    if Digit(c) then Some(c as int - '0' as int)
    else if 'A' <= c <= 'F' then Some(c as int - 'A' as int + 10)
    else if 'a' <= c <= 'f' then Some(c as int - 'a' as int + 10)
    else None
  }

  /** isspace in the C locale. */
  predicate Space(c: char) { c == ' ' || 9 <= c as int <= 13 }

  /** Digits up to the first character that is none. */
  function HexNumber(s: string, before: nat): nat {
    if |s| == 0 || HexDigit(s[0]).None? then before else HexNumber(s[1..], 16 * before + HexDigit(s[0]).value)
  }

  /** Digits behind an optional prefix. */
  function Unsigned(s: string): nat {
    if |s| > 2 && s[0] == '0' && (s[1] == 'x' || s[1] == 'X') && HexDigit(s[2]).Some? then HexNumber(s[2..], 0)
    else HexNumber(s, 0)
  }

  /** The case of a hexadecimal digit makes no difference. */
  lemma HexEitherCase(c: char)
    requires 'a' <= c <= 'f'
    ensures HexDigit(c) == HexDigit((c as int - 32) as char) == Some(10 + (c as int - 'a' as int))
  {}

  /** White space, a sign, digits, and whatever follows; zero if there are no digits. */
  function Strtol(s: string): int
    decreases |s|
  {
    if |s| == 0 then 0
    else if Space(s[0]) then Strtol(s[1..])
    else if s[0] == '-' then 0 - Unsigned(s[1..])
    else if s[0] == '+' then Unsigned(s[1..])
    else Unsigned(s)
  }

  /** The conversion of a long to char. */
  function ToChar(n: int): (c: char)
    ensures c as int < 256
  {
    (n % 256) as char
  }

  /** What decode returns. */
  function Decoded(s: string): string {
    if |s| == 0 then []
    else if s[0] == '%' && 2 < |s| then [ToChar(Strtol(s[1..3]))] + Decoded(s[3..])
    else if s[0] == '+' then [' '] + Decoded(s[1..])
    else [s[0]] + Decoded(s[1..])
  }

  /** Percent::decode. */
  method Decode(value: string) returns (result: string)
    ensures result == Decoded(value)
  {
    hide Decoded, Strtol, ToChar;
    result := [];
    var i := 0;
    assert value[0..] == value;
    while i < |value|
      invariant 0 <= i <= |value|
      invariant result + Decoded(value[i..]) == Decoded(value)
    {
      DecodedStep(value, i);
      ghost var before := result;
      var chr := value[i];
      if chr == '%' && i + 2 < |value| {
        var hex := value[i + 1..i + 3];
        result := result + [ToChar(Strtol(hex))];
        i := i + 2;
        Regroup(before, ToChar(Strtol(hex)), Decoded(value[i + 1..]));
      } else if chr == '+' {
        result := result + " ";
        Regroup(before, ' ', Decoded(value[i + 1..]));
      } else {
        result := result + [chr];
        Regroup(before, chr, Decoded(value[i + 1..]));
      }
      i := i + 1;
    }
    assert value[i..] == [];
    NothingDecoded();
  }

  lemma Regroup(a: string, c: char, b: string)
    ensures a + ([c] + b) == a + [c] + b
  {}

  /** One turn of decode's loop, in terms of what is left to decode. */
  lemma DecodedStep(value: string, i: nat)
    requires i < |value|
    ensures Decoded(value[i..]) ==
            if value[i] == '%' && i + 2 < |value|
            then [ToChar(Strtol(value[i + 1..i + 3]))] + Decoded(value[i + 3..])
            else if value[i] == '+' then [' '] + Decoded(value[i + 1..])
            else [value[i]] + Decoded(value[i + 1..])
  {
    hide Strtol, ToChar;
    var s := value[i..];
    assert s[1..] == value[i + 1..];
    if i + 2 < |value| {
      assert s[1..3] == value[i + 1..i + 3] && s[3..] == value[i + 3..];
    }
  }

  // ---- Decoding undoes encoding ----

  lemma HexBack(d: nat)
    requires d < 16
    ensures HexDigit(HEX[d]) == Some(d) && !Space(HEX[d]) && HEX[d] != '-' && HEX[d] != '+'
    ensures HEX[d] != '&' && HEX[d] != '='
  {}

  /** Two digits are read as the byte they were written from. */
  lemma TwoDigits(high: nat, low: nat)
    requires high < 16 && low < 16
    ensures Strtol([HEX[high], HEX[low]]) == 16 * high + low
  {
    HexBack(high);
    HexBack(low);
    hide HexDigit, Space;
    var s := [HEX[high], HEX[low]];
    assert s[1..] == [HEX[low]] && s[1..][1..] == [];
    assert HexNumber(s, 0) == HexNumber(s[1..], high);
    assert HexNumber(s[1..], high) == HexNumber([], 16 * high + low);
  }

  lemma DecodeFirst(c: char, rest: string)
    requires c as int < 256
    ensures Decoded(EncodeChar(c) + rest) == [c] + Decoded(rest)
  {
    hide Strtol;
    var s := EncodeChar(c) + rest;
    if Unreserved(c) {
      assert s[1..] == rest;
    } else {
      TwoDigits(c as int / 16, c as int % 16);
      assert s[1..3] == [HEX[c as int / 16], HEX[c as int % 16]];
      assert s[3..] == rest;
    }
  }

  /** Decoding undoes encoding on every byte string. */
  lemma {:induction false} DecodeEncoded(s: string)
    requires IsByteString(s)
    ensures Decoded(Encoded(s)) == s
  {
    hide EncodeChar, Decoded;
    if |s| == 0 {
      NothingDecoded();
    } else {
      DecodeEncoded(s[1..]);
      DecodeFirst(s[0], Encoded(s[1..]));
    }
  }

  lemma NothingDecoded()
    ensures Decoded([]) == []
  {}

  /** Encoded text has none of the characters that separate the fields of a query. */
  lemma {:induction false} EncodedIsPlain(s: string, i: nat)
    requires IsByteString(s) && i < |Encoded(s)|
    ensures Encoded(s)[i] != '&' && Encoded(s)[i] != '='
  {
    var first := EncodeChar(s[0]);
    if i < |first| {
      if !Unreserved(s[0]) {
        HexBack(s[0] as int / 16);
        HexBack(s[0] as int % 16);
      }
    } else {
      EncodedIsPlain(s[1..], i - |first|);
    }
  }

  /** So encoding loses nothing: different strings have different encodings. */
  lemma EncodingsDiffer(s: string, t: string)
    requires IsByteString(s) && IsByteString(t) && Encoded(s) == Encoded(t)
    ensures s == t
  {
    hide Encoded, Decoded;
    DecodeEncoded(s);
    DecodeEncoded(t);
  }
}
