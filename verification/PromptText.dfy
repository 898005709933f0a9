/**
 * The text the device-login parser accepts, said without its byte tables: well-formed UTF-8 is what
 * encoding some Unicode scalar values gives, and a device code is four and five characters around a dash.
 */
module PromptText {
  import opened ByteText
  import opened DevicePrompt

  type Scalar = c: nat | c < 0xD800 || 0xE000 <= c < 0x11_0000

  /** The bits of a scalar value, six to a trailing byte. */
  function Encode(c: Scalar): Bytes {
    if c < 0x80 then [c]
    else if c < 0x800 then [0xC0 + c / 64, 0x80 + c % 64]
    else if c < 0x1_0000 then [0xE0 + c / 64 / 64, 0x80 + c / 64 % 64, 0x80 + c % 64]
    else [0xF0 + c / 64 / 64 / 64, 0x80 + c / 64 / 64 % 64, 0x80 + c / 64 % 64, 0x80 + c % 64]
  }

  function EncodeAll(cs: seq<Scalar>): Bytes { if cs == [] then [] else Encode(cs[0]) + EncodeAll(cs[1..]) }

  lemma EncodedIsChar(c: Scalar, rest: Bytes)
    ensures CharLength(Encode(c) + rest) == |Encode(c)|
  {
    var s := Encode(c) + rest;
    assert forall i :: 0 <= i < |Encode(c)| ==> s[i] == Encode(c)[i];
  }

  /** The scalar value of the character in front, from the bits of its bytes. */
  function Decode(s: Bytes): int
    requires s != [] && CharLength(s) > 0
  {
    match CharLength(s)
    case 1 => s[0]
    case 2 => Shift(s[0] - 0xC0, s[1])
    case 3 => Shift(Shift(s[0] - 0xE0, s[1]), s[2])
    case _ => Shift(Shift(Shift(s[0] - 0xF0, s[1]), s[2]), s[3])
  }

  function Shift(high: int, tail: int): int { high * 64 + (tail - 0x80) }

  lemma ShiftSplits(high: int, tail: int)
    requires 0x80 <= tail <= 0xBF
    ensures Shift(high, tail) / 64 == high && 0x80 + Shift(high, tail) % 64 == tail
  {
  }

  /** `c` is a scalar value, and the character in front of `s` is its encoding. */
  ghost predicate Encodes(c: int, s: Bytes)
    requires s != []
  {
    0 <= c && (c < 0xD800 || 0xE000 <= c < 0x11_0000) && Encode(c) == s[..CharLength(s)]
  }

  lemma ShortIsEncoded(s: Bytes)
    requires s != [] && 0 < CharLength(s) <= 2
    ensures Encodes(Decode(s), s)
  {
    if CharLength(s) == 2 {
      ShiftSplits(s[0] - 0xC0, s[1]);
    }
  }

  lemma ThreeAreEncoded(s: Bytes)
    requires s != [] && CharLength(s) == 3
    ensures Encodes(Decode(s), s)
  {
    ShiftSplits(s[0] - 0xE0, s[1]);
    ShiftSplits(Shift(s[0] - 0xE0, s[1]), s[2]);
  }

  lemma FourAreEncoded(s: Bytes)
    requires s != [] && CharLength(s) > 3
    ensures Encodes(Decode(s), s)
  {
    ShiftSplits(s[0] - 0xF0, s[1]);
    ShiftSplits(Shift(s[0] - 0xF0, s[1]), s[2]);
    ShiftSplits(Shift(Shift(s[0] - 0xF0, s[1]), s[2]), s[3]);
  }

  /** Decoding and encoding undo each other. */
  lemma CharIsEncoded(s: Bytes)
    requires s != [] && CharLength(s) > 0
    ensures Encodes(Decode(s), s)
  {
    var n := CharLength(s);
    if n <= 2 {
      ShortIsEncoded(s);
    } else if n == 3 {
      ThreeAreEncoded(s);
    } else {
      FourAreEncoded(s);
    }
  }

  lemma DecodeUndoesEncode(c: Scalar, rest: Bytes)
    ensures CharLength(Encode(c) + rest) > 0 && Decode(Encode(c) + rest) == c
  {
    EncodedIsChar(c, rest);
    hide CharLength;
  }

  lemma {:induction false} EncodedIsUtf8(cs: seq<Scalar>)
    ensures Utf8(EncodeAll(cs))
  {
    if cs != [] {
      EncodedIsUtf8(cs[1..]);
      EncodedIsChar(cs[0], EncodeAll(cs[1..]));
      assert EncodeAll(cs)[|Encode(cs[0])|..] == EncodeAll(cs[1..]);
    }
  }

  lemma {:induction false} Utf8IsEncoded(s: Bytes) returns (cs: seq<Scalar>)
    requires Utf8(s)
    ensures EncodeAll(cs) == s
    decreases |s|
  {
    if s == [] {
      cs := [];
    } else {
      CharIsEncoded(s);
      var n := CharLength(s);
      var rest := Utf8IsEncoded(s[n..]);
      hide CharLength, Encode, Decode;
      cs := [Decode(s)] + rest;
      assert cs[1..] == rest && s == s[..n] + s[n..];
    }
  }

  /** Bytes are taken for text if and only if they encode a sequence of Unicode scalar values. */
  lemma TextExactly(s: Bytes)
    ensures Utf8(s) <==> exists cs :: EncodeAll(cs) == s
  {
    if Utf8(s) {
      var cs := Utf8IsEncoded(s);
    }
    forall cs | EncodeAll(cs) == s ensures Utf8(s) {
      EncodedIsUtf8(cs);
    }
  }

  /** What stripping removes: escape, a bracket, digits and semicolons, and an m; never a lone escape. */
  lemma ColourExactly(t: Token)
    ensures WellFormed(t) <==>
            if t.Plain? then t.b != 27
            else forall i :: 0 <= i < |t.params| ==> '0' <= t.params[i] as char <= '9' || t.params[i] as char == ';'
    ensures t.Sgr? ==> Written(t) == [27, '[' as int] + t.params + ['m' as int]
  {
  }

  /** No ASCII control character but the line feed. */
  ghost predicate NoControl(text: Bytes) {
    forall i :: 0 <= i < |text| ==> text[i] == '\n' as int || (' ' as int <= text[i] && text[i] != 0x7F)
  }

  /**
   * More output is awaited exactly while a colour sequence is open, or while the text so far is text,
   * has no control character and is shorter than the prompt.
   */
  lemma UndecidedExactly(p: Prompt, s: Bytes)
    ensures Parse(p, s, false) == Incomplete <==>
            || Strip(s).Partial?
            || (&& Strip(s).Text? && |Unix(Strip(s).bytes)| < p.Length() && NoControl(Unix(Strip(s).bytes))
                && exists cs :: EncodeAll(cs) == Strip(s).bytes)
  {
    if Strip(s).Text? {
      var t := Strip(s).bytes;
      TextExactly(t);
      hide Strip, Unix, Utf8, EncodeAll;
      assert NoControl(Unix(t)) <==> Clean(Unix(t));
    }
  }

  ghost predicate InCode(part: Bytes) {
    forall b :: b in part ==> 'A' <= b as char <= 'Z' || '0' <= b as char <= '9'
  }

  ghost predicate Dashed(code: Bytes, a: Bytes, b: Bytes) {
    |a| == 4 && |b| == 5 && InCode(a) && InCode(b) && code == a + ['-' as int] + b
  }

  /** A device code is four characters, a dash and five characters. */
  lemma CodeExactly(code: Bytes)
    ensures ValidCode(code) <==> exists a, b :: Dashed(code, a, b)
  {
    if ValidCode(code) {
      assert code == code[..4] + ['-' as int] + code[5..];
      assert Dashed(code, code[..4], code[5..]);
    }
    forall a, b | Dashed(code, a, b) ensures ValidCode(code) {
      forall i | 0 <= i < 10 && i != 4 ensures CodeByte(code[i]) {
        assert if i < 4 then code[i] == a[i] && a[i] in a else code[i] == b[i - 5] && b[i - 5] in b;
      }
    }
  }
}
