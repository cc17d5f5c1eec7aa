/**
 Base64 as Python 3.12 runs it: `b64encode`, and `b64decode(..., validate=True)`, whose strict mode still
 ignores the unused low bits of the last character and padding after complete groups
 (RFC 4648, section 4).
 */
module Base64 {
  import opened Wrappers

  type Byte = x: int | 0 <= x < 256

  type Bytes = seq<Byte>

  /** The value of a character of the alphabet. */
  function Value(c: char): (r: Option<nat>)
    ensures r.Some? ==> r.value < 64
    ensures c == '=' ==> r.None?
  {
    if 'A' <= c <= 'Z' then Some(c as int - 'A' as int)
    else if 'a' <= c <= 'z' then Some(c as int - 'a' as int + 26)
    else if '0' <= c <= '9' then Some(c as int - '0' as int + 52)
    else if c == '+' then Some(62)
    else if c == '/' then Some(63)
    else None
  }

  function Digit(v: nat): (c: char)
    requires v < 64
    ensures Value(c) == Some(v)
  {
    if v < 26 then (v + 'A' as int) as char
    else if v < 52 then (v - 26 + 'a' as int) as char
    else if v < 62 then (v - 52 + '0' as int) as char
    else if v == 62 then '+'
    else '/'
  }

  lemma DigitOfValue(c: char)
    requires Value(c).Some?
    ensures Digit(Value(c).value) == c
  {
  }

  function Encode(b: Bytes): string {
    if |b| == 0 then ""
    else if |b| == 1 then [Digit(b[0] / 4), Digit(b[0] % 4 * 16), '=', '=']
    else if |b| == 2 then [Digit(b[0] / 4), Digit(b[0] % 4 * 16 + b[1] / 16), Digit(b[1] % 16 * 4), '=']
    else
      [Digit(b[0] / 4), Digit(b[0] % 4 * 16 + b[1] / 16), Digit(b[1] % 16 * 4 + b[2] / 64), Digit(b[2] % 64)]
      + Encode(b[3..])
  }

  predicate OnlyPadding(s: string) {
    forall i | 0 <= i < |s| :: s[i] == '='
  }

  predicate IsData(c: char) {
    Value(c).Some?
  }

  predicate AllData(s: string) {
    forall i | 0 <= i < |s| :: IsData(s[i])
  }

  function First(x: nat, y: nat): Byte
    requires x < 64 && y < 64
  {
    x * 4 + y / 16
  }

  function Second(y: nat, z: nat): Byte
    requires y < 64 && z < 64
  {
    y % 16 * 16 + z / 4
  }

  function Third(z: nat, w: nat): Byte
    requires z < 64 && w < 64
  {
    z % 4 * 64 + w
  }

  /** The decoder from one group of four on; `start` refuses padding before any data. */
  function Decode(s: string, start: bool): Option<Bytes> {
    if s == "" then Some([])
    else if OnlyPadding(s) then if start then None else Some([])
    else if |s| < 4 || !IsData(s[0]) || !IsData(s[1]) then None
    else
      var x, y := Value(s[0]).value, Value(s[1]).value;
      if IsData(s[2]) && IsData(s[3]) then
        var z, w := Value(s[2]).value, Value(s[3]).value;
        var rest := Decode(s[4..], false);
        if rest.None? then None else Some([First(x, y), Second(y, z), Third(z, w)] + rest.value)
      else if |s| != 4 || s[3] != '=' then None
      else if s[2] == '=' then Some([First(x, y)])
      else if IsData(s[2]) then Some([First(x, y), Second(y, Value(s[2]).value)])
      else None
  }

  /** Whole groups, no surplus padding, and the unused bits of the last character are zero. */
  predicate Canonical(s: string) {
    var n := |s|;
    n % 4 == 0 &&
    (n > 0 && s[n - 1] == '=' ==>
      if s[n - 2] == '='
      then IsData(s[n - 3]) && Value(s[n - 3]).value % 16 == 0
      else IsData(s[n - 2]) && Value(s[n - 2]).value % 4 == 0)
  }

  /** Four 6-bit values and the three bytes they spell determine each other. */
  lemma SplitOfJoin(x: nat, y: nat, z: nat, w: nat)
    requires x < 64 && y < 64 && z < 64 && w < 64
    ensures var a, b, c := First(x, y), Second(y, z), Third(z, w);
      a / 4 == x && a % 4 * 16 + b / 16 == y && b % 16 * 4 + c / 64 == z && c % 64 == w
      && a % 4 * 16 == y - y % 16 && b % 16 * 4 == z - z % 4
  {
  }

  lemma JoinOfSplit(a: Byte, b: Byte, c: Byte)
    ensures First(a / 4, a % 4 * 16 + b / 16) == a
    ensures Second(a % 4 * 16 + b / 16, b % 16 * 4 + c / 64) == b
    ensures Third(b % 16 * 4 + c / 64, c % 64) == c
    ensures First(a / 4, a % 4 * 16) == a && Second(a % 4 * 16 + b / 16, b % 16 * 4) == b
  {
  }

  /** One complete group of the encoding, and what follows it. */
  lemma EncodedGroup(b: Bytes)
    requires |b| >= 3
    ensures var s := Encode(b);
      && |s| >= 4 && s[4..] == Encode(b[3..])
      && Value(s[0]) == Some(b[0] / 4) && Value(s[1]) == Some(b[0] % 4 * 16 + b[1] / 16)
      && Value(s[2]) == Some(b[1] % 16 * 4 + b[2] / 64) && Value(s[3]) == Some(b[2] % 64)
  {
  }

  /** One complete group of the text, and what follows it. */
  lemma DecodedGroup(s: string, start: bool, x: nat, y: nat, z: nat, w: nat)
    requires |s| >= 4 && Decode(s[4..], false).Some?
    requires Value(s[0]) == Some(x) && Value(s[1]) == Some(y) && Value(s[2]) == Some(z) && Value(s[3]) == Some(w)
    ensures Decode(s, start) == Some([First(x, y), Second(y, z), Third(z, w)] + Decode(s[4..], false).value)
  {
    assert !OnlyPadding(s);
  }

  /** Decoding undoes encoding, for every byte string. */
  lemma {:induction false} RoundTrip(b: Bytes, start: bool)
    ensures Decode(Encode(b), start) == Some(b)
  {
    if |b| >= 3 {
      RoundTrip(b[3..], false);
      RoundTripGroup(b, start);
    } else if |b| == 1 {
      RoundTripOne(b[0], start);
      assert b == [b[0]];
    } else if |b| == 2 {
      RoundTripTwo(b[0], b[1], start);
      assert b == [b[0], b[1]];
    }
  }

  /** A last group with padding. */
  lemma DecodedTail(s: string, start: bool, x: nat, y: nat)
    requires |s| == 4 && s[3] == '=' && Value(s[0]) == Some(x) && Value(s[1]) == Some(y)
    requires s[2] == '=' || IsData(s[2])
    ensures Decode(s, start)
         == Some(if s[2] == '=' then [First(x, y)] else [First(x, y), Second(y, Value(s[2]).value)])
  {
    assert !OnlyPadding(s);
  }

  lemma EncodedOne(a: Byte)
    ensures var s := Encode([a]);
      |s| == 4 && Value(s[0]) == Some(a / 4) && Value(s[1]) == Some(a % 4 * 16) && s[2] == '=' && s[3] == '='
  {
  }

  lemma EncodedTwo(a: Byte, b: Byte)
    ensures var s := Encode([a, b]);
      && |s| == 4 && Value(s[0]) == Some(a / 4) && Value(s[1]) == Some(a % 4 * 16 + b / 16)
      && Value(s[2]) == Some(b % 16 * 4) && s[3] == '='
  {
  }

  lemma RoundTripOne(a: Byte, start: bool)
    ensures Decode(Encode([a]), start) == Some([a])
  {
    EncodedOne(a);
    JoinOfSplit(a, 0, 0);
    DecodedTail(Encode([a]), start, a / 4, a % 4 * 16);
  }

  lemma RoundTripTwo(a: Byte, b: Byte, start: bool)
    ensures Decode(Encode([a, b]), start) == Some([a, b])
  {
    EncodedTwo(a, b);
    var s := Encode([a, b]);
    var x, y, z := a / 4, a % 4 * 16 + b / 16, b % 16 * 4;
    DecodedTail(s, start, x, y);
    assert Decode(s, start) == Some([First(x, y), Second(y, z)]);
    JoinOfSplit(a, b, 0);
  }

  lemma RoundTripGroup(b: Bytes, start: bool)
    requires |b| >= 3 && Decode(Encode(b[3..]), false) == Some(b[3..])
    ensures Decode(Encode(b), start) == Some(b)
  {
    EncodedGroup(b);
    var x, y, z, w := b[0] / 4, b[0] % 4 * 16 + b[1] / 16, b[1] % 16 * 4 + b[2] / 64, b[2] % 64;
    DecodedGroup(Encode(b), start, x, y, z, w);
    JoinOfSplit(b[0], b[1], b[2]);
    assert b == [b[0], b[1], b[2]] + b[3..];
  }

  /** Encoding undoes decoding exactly for canonical text: the decoder is not injective. */
  lemma {:induction false} CanonicalExactly(s: string, start: bool)
    requires Decode(s, start).Some?
    ensures Encode(Decode(s, start).value) == s <==> Canonical(s)
  {
    if s == "" {
    } else if OnlyPadding(s) {
      assert |s| % 4 == 0 ==> s[|s| - 1] == '=' && s[|s| - 2] == '=' && s[|s| - 3] == '=';
    } else if IsData(s[2]) && IsData(s[3]) {
      FullGroup(s, start);
      CanonicalExactly(s[4..], false);
    } else {
      LastGroup(s, start);
    }
  }

  lemma EncodeOfGroup(s: string, start: bool)
    requires |s| >= 4 && Decode(s[4..], false).Some?
    requires IsData(s[0]) && IsData(s[1]) && IsData(s[2]) && IsData(s[3])
    ensures Decode(s, start).Some?
    ensures Encode(Decode(s, start).value) == s[..4] + Encode(Decode(s[4..], false).value)
  {
    var x, y, z, w := Value(s[0]).value, Value(s[1]).value, Value(s[2]).value, Value(s[3]).value;
    DecodedGroup(s, start, x, y, z, w);
    SplitOfJoin(x, y, z, w);
    var rest := Decode(s[4..], false).value;
    var b := [First(x, y), Second(y, z), Third(z, w)] + rest;
    assert b[3..] == rest;
    EncodedGroup(b);
    var e := Encode(b);
    forall i | 0 <= i < 4 ensures e[i] == s[i] {
      DigitOfValue(s[i]);
      DigitOfValue(e[i]);
    }
    assert e == e[..4] + e[4..];
  }

  lemma CanonicalTail(s: string)
    requires |s| >= 4 && IsData(s[3])
    ensures Canonical(s) <==> Canonical(s[4..])
    ensures s[..4] + s[4..] == s
  {
    var t := s[4..];
    if |s| > 4 && |s| % 4 == 0 {
      assert t[|t| - 1] == s[|s| - 1] && t[|t| - 2] == s[|s| - 2] && t[|t| - 3] == s[|s| - 3];
    }
  }

  /** A complete group encodes back to its four characters. */
  lemma FullGroup(s: string, start: bool)
    requires |s| >= 4 && Decode(s, start).Some? && !OnlyPadding(s) && IsData(s[2]) && IsData(s[3])
    ensures Decode(s[4..], false).Some?
    ensures Encode(Decode(s, start).value) == s[..4] + Encode(Decode(s[4..], false).value)
    ensures Canonical(s) <==> Canonical(s[4..])
    ensures s[..4] + s[4..] == s
  {
    assert Decode(s[4..], false).Some? && IsData(s[0]) && IsData(s[1]);
    EncodeOfGroup(s, start);
    CanonicalTail(s);
  }

  lemma LastGroup(s: string, start: bool)
    requires Decode(s, start).Some? && s != "" && !OnlyPadding(s) && !(IsData(s[2]) && IsData(s[3]))
    ensures Encode(Decode(s, start).value) == s <==> Canonical(s)
  {
    var b := Decode(s, start).value;
    DigitOfValue(s[0]);
    DigitOfValue(s[1]);
    SplitOfJoin(Value(s[0]).value, Value(s[1]).value, if s[2] == '=' then 0 else Value(s[2]).value, 0);
    assert Encode(b)[0] == s[0];
    if s[2] == '=' {
      assert Encode(b) == s <==> Encode(b)[1] == s[1];
    } else {
      DigitOfValue(s[2]);
      assert Encode(b)[1] == s[1];
      assert Encode(b) == s <==> Encode(b)[2] == s[2];
    }
  }

  /** With one "=" appended, a text of 4n + 3 characters decodes to 3n + 2 bytes exactly when all are data. */
  lemma {:induction false} OnePad(body: string, start: bool)
    requires |body| % 4 == 3
    ensures var r := Decode(body + "=", start);
      (r.Some? && |r.value| == |body| / 4 * 3 + 2) <==> AllData(body)
  {
    var s := body + "=";
    if |body| > 3 && IsData(s[0]) && IsData(s[1]) && IsData(s[2]) && IsData(s[3]) {
      OnePad(body[4..], false);
      assert s[4..] == body[4..] + "=";
      assert AllData(body) <==> AllData(body[4..]) by {
        assert body == body[..4] + body[4..];
      }
    } else if OnlyPadding(s) {
      assert s[0] == body[0];
    } else if |body| == 3 {
      assert s[0] == body[0] && s[1] == body[1] && s[2] == body[2] && s[3] == '=';
    } else {
      assert s[0] == body[0] && s[1] == body[1] && s[2] == body[2] && s[3] == body[3];
    }
  }

  /** The text ends in exactly one padding character. */
  predicate EndsInOnePad(s: string) {
    |s| >= 4 && s[|s| - 1] == '=' && s[|s| - 2] != '='
  }

  /** The same text with an unused bit of its last character set. */
  function Twin(s: string): string
    requires EndsInOnePad(s) && Canonical(s)
  {
    s[|s| - 2 := Digit(Value(s[|s| - 2]).value + 1)]
  }

  /** It decodes to the same bytes, and is no longer canonical. */
  lemma {:induction false} TwinDecodes(s: string, start: bool)
    requires Decode(s, start).Some? && EndsInOnePad(s) && Canonical(s)
    ensures Twin(s) != s && Decode(Twin(s), start) == Decode(s, start) && !Canonical(Twin(s))
  {
    var t := Twin(s);
    var last := Value(s[|s| - 2]).value;
    assert Value(t[|s| - 2]) == Some(last + 1);
    assert !OnlyPadding(s) && !OnlyPadding(t);
    if |s| == 4 {
      assert Second(Value(s[1]).value, last) == Second(Value(s[1]).value, last + 1);
    } else {
      assert |s| >= 8;
      CanonicalTail(s);
      TwinDecodes(s[4..], false);
      assert t[4..] == Twin(s[4..]);
      var x, y, z, w := Value(s[0]).value, Value(s[1]).value, Value(s[2]).value, Value(s[3]).value;
      DecodedGroup(s, start, x, y, z, w);
      DecodedGroup(t, start, x, y, z, w);
    }
  }

  lemma SameEnd(s: string, rest: string)
    requires |s| >= 4 && s[4..] == rest && EndsInOnePad(rest)
    ensures EndsInOnePad(s)
  {
    assert s[|s| - 1] == rest[|rest| - 1] && s[|s| - 2] == rest[|rest| - 2];
  }

  /** Text that encodes 3n + 2 bytes ends in one padding character. */
  lemma {:induction false} EncodeEnd(b: Bytes)
    requires |b| % 3 == 2
    ensures EndsInOnePad(Encode(b))
  {
    if |b| > 2 {
      EncodedGroup(b);
      EncodeEnd(b[3..]);
      SameEnd(Encode(b), Encode(b[3..]));
    } else {
      EncodedTwo(b[0], b[1]);
      assert b == [b[0], b[1]];
    }
  }
}
