/**
 The continuation token that both services write: two big-endian 32-bit lengths, the partition key
 and the row key, in base64url; and the reader with its fallback to the older JSON form.
 */
module ContinuationToken {
  import opened Options
  import opened Base64Url

  const WORD := 0x1_0000_0000

  // uint32(len), big endian
  function BigEndian(n: nat): (b: Bytes)
    ensures |b| == 4
  {
    var w := n % WORD;
    [w / 0x100_0000, w / 0x1_0000 % 0x100, w / 0x100 % 0x100, w % 0x100]
  }

  function Uint32(b: Bytes): nat
    requires |b| == 4
  {
    b[0] as int * 0x100_0000 + b[1] as int * 0x1_0000 + b[2] as int * 0x100 + b[3] as int
  }

  lemma ShiftTwice(w: nat)
    ensures w / 0x1_0000 == w / 0x100 / 0x100
  {
  }

  lemma ShiftThrice(w: nat)
    ensures w / 0x100_0000 == w / 0x1_0000 / 0x100
  {
  }

  lemma BigEndianValue(n: nat)
    ensures Uint32(BigEndian(n)) == n % WORD
  {
    var w := n % WORD;
    ShiftTwice(w);
    ShiftThrice(w);
    var q1, q2, q3 := w / 0x100, w / 0x1_0000, w / 0x100_0000;
    assert w == 0x100 * q1 + w % 0x100;
    assert q1 == 0x100 * q2 + q1 % 0x100;
    assert q2 == 0x100 * q3 + q2 % 0x100;
  }

  function TokenBytes(pk: Bytes, rk: Bytes): Bytes {
    BigEndian(|pk|) + BigEndian(|rk|) + pk + rk
  }

  // The token of a pair of optional keys; "" stands for "no next page".
  function Token(pk: Option<Bytes>, rk: Option<Bytes>): string {
    if pk.None? || rk.None? || pk.value == [] || rk.value == [] then "" else Encode(TokenBytes(pk.value, rk.value))
  }

  /** encodeContinuationToken, filling the buffer in place. */
  method EncodeToken(pk: Option<Bytes>, rk: Option<Bytes>) returns (token: string)
    ensures token == Token(pk, rk)
  {
    if pk.None? || rk.None? {
      return "";
    }
    if |pk.value| == 0 || |rk.value| == 0 {
      return "";
    }
    var p, r := pk.value, rk.value;
    var data := new byte[8 + |p| + |r|](_ => 0);
    PutUint32(data, 0, |p|);
    PutUint32(data, 4, |r|);
    assert data[..8] == data[..4] + data[4..8] == BigEndian(|p|) + BigEndian(|r|);
    Copy(data, 8, p);
    assert data[..8 + |p|] == data[..8] + data[8..8 + |p|];
    Copy(data, 8 + |p|, r);
    assert data[..] == data[..8 + |p|] + data[8 + |p|..8 + |p| + |r|];
    assert data[..] == TokenBytes(p, r);
    token := Encode(data[..]);
  }

  method PutUint32(data: array<byte>, at: nat, n: nat)
    requires at + 4 <= data.Length
    modifies data
    ensures data[at..at + 4] == BigEndian(n)
    ensures data[..at] == old(data[..at]) && data[at + 4..] == old(data[at + 4..])
  {
    var w := n % WORD;
    data[at] := w / 0x100_0000;
    data[at + 1] := w / 0x1_0000 % 0x100;
    data[at + 2] := w / 0x100 % 0x100;
    data[at + 3] := w % 0x100;
  }

  method Copy(data: array<byte>, at: nat, src: Bytes)
    requires at + |src| <= data.Length
    modifies data
    ensures data[at..at + |src|] == src
    ensures data[..at] == old(data[..at]) && data[at + |src|..] == old(data[at + |src|..])
  {
    for i := 0 to |src|
      invariant data[at..at + i] == src[..i]
      invariant data[..at] == old(data[..at]) && data[at + |src|..] == old(data[at + |src|..])
    {
      data[at + i] := src[i];
      assert data[at..at + i] == src[..i];
      assert data[at..at + i + 1] == data[at..at + i] + [src[i]];
    }
  }

  datatype Keys = Keys(pk: Bytes, rk: Bytes)

  datatype Decoded = NoToken | Decoded(keys: Keys) | Invalid

  // The binary form, when the lengths add up.
  function DecodeBinary(data: Bytes): Option<Keys> {
    if |data| < 8 then None
    else
      var pkLen, rkLen := Uint32(data[..4]), Uint32(data[4..8]);
      if pkLen > 0 && rkLen > 0 && 8 + pkLen + rkLen == |data|
      then Some(Keys(data[8..8 + pkLen], data[8 + pkLen..])) else None
  }

  // decodeContinuationToken; json stands for the JSON reader, which leaves missing keys empty
  function DecodeToken(token: string, json: Bytes -> Option<Keys>): Decoded {
    if token == "" then NoToken
    else
      var data := Decode(token);
      if data.None? then Invalid
      else if DecodeBinary(data.value).Some? then Decoded(DecodeBinary(data.value).value)
      else
        var k := json(data.value);
        if k.None? || k.value.pk == [] || k.value.rk == [] then Invalid else Decoded(k.value)
  }

  lemma HeaderLengths(pk: Bytes, rk: Bytes)
    ensures var data := TokenBytes(pk, rk);
      && |data| == 8 + |pk| + |rk|
      && Uint32(data[..4]) == |pk| % WORD && Uint32(data[4..8]) == |rk| % WORD
  {
    var data := TokenBytes(pk, rk);
    assert data[..4] == BigEndian(|pk|) && data[4..8] == BigEndian(|rk|);
    BigEndianValue(|pk|);
    BigEndianValue(|rk|);
  }

  lemma LengthFits(n: nat)
    ensures n % WORD <= n
    ensures n % WORD == n <==> n < WORD
  {
  }

  /** The binary reader takes an encoded pair for what it is exactly when both lengths fit 32 bits. */
  lemma BinaryRoundTrip(pk: Bytes, rk: Bytes)
    requires pk != [] && rk != []
    ensures DecodeBinary(TokenBytes(pk, rk)) == (if |pk| < WORD && |rk| < WORD then Some(Keys(pk, rk)) else None)
  {
    var data := TokenBytes(pk, rk);
    HeaderLengths(pk, rk);
    LengthFits(|pk|);
    LengthFits(|rk|);
    if |pk| < WORD && |rk| < WORD {
      assert data[8..8 + |pk|] == pk && data[8 + |pk|..] == rk;
    }
  }

  /** Reading a written token gives back both keys. */
  lemma TokenRoundTrip(pk: Bytes, rk: Bytes, json: Bytes -> Option<Keys>)
    requires 0 < |pk| < WORD && 0 < |rk| < WORD
    ensures Token(Some(pk), Some(rk)) != ""
    ensures DecodeToken(Token(Some(pk), Some(rk)), json) == Decoded(Keys(pk, rk))
  {
    EncodeInAlphabet(TokenBytes(pk, rk));
    RoundTrip(TokenBytes(pk, rk));
    BinaryRoundTrip(pk, rk);
  }

  /** A token with a character that is neither of the alphabet nor a line break is refused. */
  lemma StrangeTokenIsInvalid(token: string, i: nat, json: Bytes -> Option<Keys>)
    requires i < |token| && token[i] != '\n' && token[i] != '\r'
    requires token[i] !in ALPHABET
    ensures DecodeToken(token, json).Invalid?
  {
    if Value(token[i]).Some? {
      CharOfValue(token[i]);
      AlphabetIs(Value(token[i]).value);
    }
    var j := SkippingKeeps(token, i);
    StrangersRefused(SkipLineBreaks(token), j);
  }

  /** The layout in one example: keys "a" and "bc". */
  lemma TokenLayout()
    ensures TokenBytes([97], [98, 99]) == [0, 0, 0, 1, 0, 0, 0, 2, 97, 98, 99]
    ensures Token(None, Some([98])) == "" && Token(Some([97]), None) == "" && Token(Some([]), Some([98])) == ""
  {
    assert BigEndian(1) == [0, 0, 0, 1] && BigEndian(2) == [0, 0, 0, 2];
  }

  /** Tokens are equal only for equal pairs of keys. */
  lemma TokenInjective(pk: Bytes, rk: Bytes, pk': Bytes, rk': Bytes)
    requires 0 < |pk| < WORD && 0 < |rk| < WORD && 0 < |pk'| < WORD && 0 < |rk'| < WORD
    ensures Token(Some(pk), Some(rk)) == Token(Some(pk'), Some(rk')) <==> pk == pk' && rk == rk'
  {
    var json := (_: Bytes) => None;
    TokenRoundTrip(pk, rk, json);
    TokenRoundTrip(pk', rk', json);
  }

  /** A JSON text starts with a byte of at least 0x09 (white space, a brace, a quote, ...); shorter
      than 0x09000000 bytes it is never taken for the binary form, so older tokens keep their meaning. */
  lemma LegacyKeepsMeaning(text: Bytes, json: Bytes -> Option<Keys>)
    requires 0 < |text| < 0x0900_0000 && text[0] >= 0x09
    ensures DecodeToken(Encode(text), json) ==
      var k := json(text);
      if k.None? || k.value.pk == [] || k.value.rk == [] then Invalid else Decoded(k.value)
  {
    EncodeInAlphabet(text);
    RoundTrip(text);
    assert DecodeBinary(text).None?;
  }
}
