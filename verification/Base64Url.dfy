/** Unpadded base64url (RFC 4648, sections 3.2 and 5), as Go's RawURLEncoding writes and reads it. */
module Base64Url {
  import opened Options

  type byte = x: int | 0 <= x < 256
  type Bytes = seq<byte>

  // a value of six bits
  type sextet = x: int | 0 <= x < 64

  function Char(x: sextet): char {
    if x < 26 then (x + 'A' as int) as char
    else if x < 52 then (x - 26 + 'a' as int) as char
    else if x < 62 then (x - 52 + '0' as int) as char
    else if x == 62 then '-' else '_'
  }

  function Value(c: char): Option<sextet> {
    if 'A' <= c <= 'Z' then Some(c as int - 'A' as int)
    else if 'a' <= c <= 'z' then Some(c as int - 'a' as int + 26)
    else if '0' <= c <= '9' then Some(c as int - '0' as int + 52)
    else if c == '-' then Some(62)
    else if c == '_' then Some(63)
    else None
  }

  function Encode(b: Bytes): string {
    if b == [] then ""
    else if |b| == 1 then [Char(b[0] / 4), Char(b[0] % 4 * 16)]
    else if |b| == 2 then [Char(b[0] / 4), Char(b[0] % 4 * 16 + b[1] / 16), Char(b[1] % 16 * 4)]
    else
      [Char(b[0] / 4), Char(b[0] % 4 * 16 + b[1] / 16), Char(b[1] % 16 * 4 + b[2] / 64),
       Char(b[2] % 64)] + Encode(b[3..])
  }

  // The decoder skips line breaks anywhere.
  function SkipLineBreaks(s: string): string {
    if s == "" then ""
    else if s[0] == '\n' || s[0] == '\r' then SkipLineBreaks(s[1..])
    else [s[0]] + SkipLineBreaks(s[1..])
  }

  // Four characters make three bytes; unused low bits of the last character are not checked.
  function DecodeQuanta(s: string): Option<Bytes> {
    if s == "" then Some([])
    else if |s| == 1 then None
    else
      var v0, v1 := Value(s[0]), Value(s[1]);
      if v0.None? || v1.None? then None
      else
        var b0 := v0.value * 4 + v1.value / 16;
        if |s| == 2 then Some([b0])
        else
          var v2 := Value(s[2]);
          if v2.None? then None
          else
            var b1 := v1.value % 16 * 16 + v2.value / 4;
            if |s| == 3 then Some([b0, b1])
            else
              var v3, rest := Value(s[3]), DecodeQuanta(s[4..]);
              if v3.None? || rest.None? then None
              else Some([b0, b1, v2.value % 4 * 64 + v3.value] + rest.value)
  }

  function Decode(s: string): Option<Bytes> {
    DecodeQuanta(SkipLineBreaks(s))
  }

  ghost predicate InAlphabet(s: string) {
    forall i | 0 <= i < |s| :: Value(s[i]).Some?
  }

  lemma CharValue(x: sextet)
    ensures Value(Char(x)) == Some(x)
  {
  }

  lemma CharOfValue(c: char)
    requires Value(c).Some?
    ensures Char(Value(c).value) == c
  {
  }

  const UPPER := "ABCDEFGHIJKLMNOPQRSTUVWXYZ"
  const LOWER := "abcdefghijklmnopqrstuvwxyz"
  const REST := "0123456789-_"

  // The URL- and filename-safe alphabet, table 2 of RFC 4648
  const ALPHABET := UPPER + LOWER + REST

  lemma AlphabetParts(x: sextet)
    ensures x < 26 ==> Char(x) == UPPER[x]
    ensures 26 <= x < 52 ==> Char(x) == LOWER[x - 26]
    ensures 52 <= x ==> Char(x) == REST[x - 52]
  {
  }

  /** Each value of six bits is written as its entry in the table, and read back as its place there. */
  lemma AlphabetIs(x: sextet)
    ensures |ALPHABET| == 64 && Char(x) == ALPHABET[x] && Value(ALPHABET[x]) == Some(x)
  {
    AlphabetParts(x);
    CharValue(x);
  }

  /** Test vectors: "f", "fo", "foo" (section 10 of RFC 4648, unpadded), and two bytes that need "-" and "_". */
  lemma EncodesAs()
    ensures Encode([102]) == "Zg" && Encode([102, 111]) == "Zm8" && Encode([102, 111, 111]) == "Zm9v"
    ensures Encode([251, 255]) == "-_8"
  {
    var foo: Bytes := [102, 111, 111];
    assert foo[3..] == [];
    assert Encode(foo) == [Char(25), Char(38), Char(61), Char(47)] + Encode(foo[3..]);
    assert Encode([102]) == [Char(25), Char(32)];
    assert Encode([102, 111]) == [Char(25), Char(38), Char(60)];
    assert Encode([251, 255]) == [Char(62), Char(63), Char(60)];
  }

  /** A text with a character outside the alphabet does not decode. */
  lemma {:induction false} StrangersRefused(s: string, i: nat)
    requires i < |s| && Value(s[i]).None?
    ensures DecodeQuanta(s).None?
    decreases |s|
  {
    if i < 4 {
    } else {
      StrangersRefused(s[4..], i - 4);
    }
  }

  lemma {:induction false} SkippingKeeps(s: string, i: nat) returns (j: nat)
    requires i < |s| && s[i] != '\n' && s[i] != '\r'
    ensures j < |SkipLineBreaks(s)| && SkipLineBreaks(s)[j] == s[i]
    decreases |s|
  {
    if i == 0 {
      j := 0;
    } else {
      j := SkippingKeeps(s[1..], i - 1);
      if s[0] != '\n' && s[0] != '\r' {
        j := j + 1;
      }
    }
  }

  lemma {:induction false} EncodeInAlphabet(b: Bytes)
    ensures InAlphabet(Encode(b)) && (b != [] ==> Encode(b) != "")
  {
    if |b| >= 3 {
      EncodeInAlphabet(b[3..]);
      CharValue(b[0] / 4);
      CharValue(b[0] % 4 * 16 + b[1] / 16);
      CharValue(b[1] % 16 * 4 + b[2] / 64);
      CharValue(b[2] % 64);
    } else if |b| == 2 {
      CharValue(b[0] / 4);
      CharValue(b[0] % 4 * 16 + b[1] / 16);
      CharValue(b[1] % 16 * 4);
    } else if |b| == 1 {
      CharValue(b[0] / 4);
      CharValue(b[0] % 4 * 16);
    }
  }

  lemma {:induction false} NothingToSkip(s: string)
    requires InAlphabet(s)
    ensures SkipLineBreaks(s) == s
  {
    if s == "" {
    } else {
      assert InAlphabet(s[1..]);
      NothingToSkip(s[1..]);
      assert Value(s[0]).Some?;
      assert s == [s[0]] + s[1..];
    }
  }

  // The one or two bytes left over
  lemma {:induction false} LastQuantum(b: Bytes)
    requires |b| < 3
    ensures DecodeQuanta(Encode(b)) == Some(b)
  {
    if |b| == 2 {
      CharValue(b[0] / 4);
      CharValue(b[0] % 4 * 16 + b[1] / 16);
      CharValue(b[1] % 16 * 4);
      assert b == [b[0], b[1]];
    } else if |b| == 1 {
      CharValue(b[0] / 4);
      CharValue(b[0] % 4 * 16);
      assert b == [b[0]];
    }
  }

  // Three bytes cut into four sextets and put together again
  lemma FullQuantum(b0: byte, b1: byte, b2: byte)
    ensures b0 / 4 * 4 + (b0 % 4 * 16 + b1 / 16) / 16 == b0
    ensures (b0 % 4 * 16 + b1 / 16) % 16 * 16 + (b1 % 16 * 4 + b2 / 64) / 4 == b1
    ensures (b1 % 16 * 4 + b2 / 64) % 4 * 64 + b2 % 64 == b2
  {
  }

  lemma {:induction false} DecodeStep(c0: sextet, c1: sextet, c2: sextet, c3: sextet, s: string)
    requires DecodeQuanta(s).Some?
    ensures DecodeQuanta([Char(c0), Char(c1), Char(c2), Char(c3)] + s) ==
      Some([c0 * 4 + c1 / 16, c1 % 16 * 16 + c2 / 4, c2 % 4 * 64 + c3] + DecodeQuanta(s).value)
  {
    CharValue(c0);
    CharValue(c1);
    CharValue(c2);
    CharValue(c3);
    assert ([Char(c0), Char(c1), Char(c2), Char(c3)] + s)[4..] == s;
  }

  // One full quantum in front of a text that decodes
  lemma {:induction false} QuantumRoundTrip(b0: byte, b1: byte, b2: byte, s: string)
    requires DecodeQuanta(s).Some?
    ensures DecodeQuanta([Char(b0 / 4), Char(b0 % 4 * 16 + b1 / 16), Char(b1 % 16 * 4 + b2 / 64), Char(b2 % 64)] + s) ==
      Some([b0, b1, b2] + DecodeQuanta(s).value)
  {
    FullQuantum(b0, b1, b2);
    DecodeStep(b0 / 4, b0 % 4 * 16 + b1 / 16, b1 % 16 * 4 + b2 / 64, b2 % 64, s);
  }

  lemma {:induction false} QuantaRoundTrip(b: Bytes)
    ensures DecodeQuanta(Encode(b)) == Some(b)
  {
    if |b| < 3 {
      LastQuantum(b);
    } else {
      QuantaRoundTrip(b[3..]);
      QuantumRoundTrip(b[0], b[1], b[2], Encode(b[3..]));
      assert b == [b[0], b[1], b[2]] + b[3..];
    }
  }

  /** Decoding undoes encoding, so different bytes have different texts. */
  lemma RoundTrip(b: Bytes)
    ensures Decode(Encode(b)) == Some(b)
  {
    EncodeInAlphabet(b);
    NothingToSkip(Encode(b));
    QuantaRoundTrip(b);
  }
}
