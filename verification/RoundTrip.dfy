/** Encoding and decoding are inverse, and damage to a frame is noticed. */
module RoundTrip {
  import opened Common
  import opened Crc
  import opened Frames

  // ---- hexadecimal ----

  lemma NibbleRoundTrip(n: nat, b: seq<bool>)
    requires n < 16 && |b| == 4
    ensures NibbleValue(Nibble(n)) == n
    ensures Nibble(NibbleValue(b)) == b
    ensures HexDigit(HexChar(n)) && HexCharValue(HexChar(n)) == n
  {
  }

  lemma HexDigitRoundTrip(c: char)
    requires HexDigit(c)
    ensures HexCharValue(c) < 16 && HexChar(HexCharValue(c)) == c
  {
    assert HEX[..10] == "0123456789" && HEX[10..] == "ABCDEF";
    if Digit(c) {
      DecimalDigit(c);
    }
  }

  lemma DecimalDigit(c: char)
    requires Digit(c)
    ensures HEX[c as int - '0' as int] == c
  {
  }

  lemma Hex4RoundTrip(w: Word)
    ensures IsHex4(Hex4(w)) && ParseHex4(Hex4(w)) == w
  {
    NibbleRoundTrip(NibbleValue(w[..4]), w[..4]);
    NibbleRoundTrip(NibbleValue(w[4..8]), w[4..8]);
    NibbleRoundTrip(NibbleValue(w[8..12]), w[8..12]);
    NibbleRoundTrip(NibbleValue(w[12..]), w[12..]);
    assert w == w[..4] + w[4..8] + w[8..12] + w[12..];
  }

  lemma ParseHex4RoundTrip(s: string)
    requires IsHex4(s)
    ensures Hex4(ParseHex4(s)) == s
  {
    forall i | 0 <= i < 4 ensures HexCharValue(s[i]) < 16 && HexChar(HexCharValue(s[i])) == s[i] {
      HexDigitRoundTrip(s[i]);
    }
    var w := ParseHex4(s);
    assert w[..4] == Nibble(HexCharValue(s[0])) && w[4..8] == Nibble(HexCharValue(s[1]));
    assert w[8..12] == Nibble(HexCharValue(s[2])) && w[12..] == Nibble(HexCharValue(s[3]));
    forall i | 0 <= i < 4 ensures NibbleValue(Nibble(HexCharValue(s[i]))) == HexCharValue(s[i]) {
      NibbleRoundTrip(HexCharValue(s[i]), Nibble(HexCharValue(s[i])));
    }
  }

  // ---- tokens ----

  lemma FindIn(before: string, c: char, rest: string)
    requires c !in before
    ensures Find(before + [c] + rest, c) == |before|
  {
    var s := before + [c] + rest;
    assert s[|before|] == c;
    assert forall j :: 0 <= j < |before| ==> s[j] == before[j];
  }

  predicate NoneContains(tokens: seq<string>, c: char) {
    forall i :: 0 <= i < |tokens| ==> c !in tokens[i]
  }

  lemma {:induction false} SplitJoin(tokens: seq<string>, c: char)
    requires tokens != [] && NoneContains(tokens, c)
    ensures Split(Join(tokens, c), c) == tokens
    decreases |tokens|
  {
    if |tokens| == 1 {
      assert c !in tokens[0];
    } else {
      var rest := Join(tokens[1..], c);
      assert c !in tokens[0];
      FindIn(tokens[0], c, rest);
      var s := tokens[0] + [c] + rest;
      assert s[..|tokens[0]|] == tokens[0] && s[|tokens[0]| + 1..] == rest;
      SplitJoin(tokens[1..], c);
    }
  }

  lemma {:induction false} JoinSplit(s: string, c: char)
    ensures Join(Split(s, c), c) == s && NoneContains(Split(s, c), c)
    decreases |s|
  {
    var i := Find(s, c);
    if i < |s| {
      JoinSplit(s[i + 1..], c);
      assert Split(s, c)[1..] == Split(s[i + 1..], c);
      assert s == s[..i] + [c] + s[i + 1..];
    }
  }

  lemma {:induction false} JoinChars(tokens: seq<string>, c: char)
    requires tokens != []
    ensures forall x :: x in Join(tokens, c) ==> x == c || exists i :: 0 <= i < |tokens| && x in tokens[i]
    decreases |tokens|
  {
    if |tokens| > 1 {
      JoinChars(tokens[1..], c);
      forall x | x in Join(tokens, c) && x != c ensures exists i :: 0 <= i < |tokens| && x in tokens[i] {
        if x !in tokens[0] {
          var i :| 0 <= i < |tokens[1..]| && x in tokens[1..][i];
          assert x in tokens[i + 1];
        }
      }
    }
  }

  /** A character no token of a valid frame holds other than as a separator. */
  predicate Plain(c: char) {
    ValueChar(c) || c == '='
  }

  predicate AllPlain(s: string) {
    forall i :: 0 <= i < |s| ==> Plain(s[i])
  }

  function Tokens(f: Frame): seq<string> {
    ["KP1", f.kind, f.requestId, f.operation] + FieldTokens(f.fields)
  }

  lemma TokensPlain(f: Frame)
    requires ValidHeader(f) && ValidFields(f.fields)
    ensures forall i :: 0 <= i < |Tokens(f)| ==> AllPlain(Tokens(f)[i])
  {
    forall i | 0 <= i < |Tokens(f)| ensures AllPlain(Tokens(f)[i]) {
      if i >= 4 {
        assert Tokens(f)[i] == FieldToken(f.fields[i - 4]);
        assert IsKey(f.fields[i - 4].0) && IsValue(f.fields[i - 4].1);
      } else {
        assert Tokens(f)[0] == "KP1" && Tokens(f)[1] == f.kind && Tokens(f)[2] == f.requestId && Tokens(f)[3] == f.operation;
      }
    }
  }

  lemma PayloadChars(f: Frame)
    requires ValidHeader(f) && ValidFields(f.fields)
    ensures forall i :: 0 <= i < |Payload(f)| ==> Plain(Payload(f)[i]) || Payload(f)[i] == '|'
    ensures NoneContains(Tokens(f), '|') && Payload(f) == Join(Tokens(f), '|')
  {
    TokensPlain(f);
    JoinChars(Tokens(f), '|');
    forall i | 0 <= i < |Payload(f)| ensures Plain(Payload(f)[i]) || Payload(f)[i] == '|' {
      assert Payload(f)[i] in Payload(f);
    }
    forall i | 0 <= i < |Tokens(f)| ensures '|' !in Tokens(f)[i] {
      assert AllPlain(Tokens(f)[i]);
    }
  }

  lemma FieldTokenReads(fields: seq<(string, string)>, field: (string, string))
    requires IsKey(field.0) && IsValue(field.1) && !HasKey(fields, field.0)
    ensures ReadField(fields, FieldToken(field)) == Ok(field)
  {
    FindIn(field.0, '=', field.1);
    var t := FieldToken(field);
    assert t == field.0 + ['='] + field.1;
    assert t[..|field.0|] == field.0 && t[|field.0| + 1..] == field.1;
    assert (field.0, field.1) == field;
  }

  lemma {:induction false} FieldsRead(done: seq<(string, string)>, fields: seq<(string, string)>)
    requires ValidFields(done + fields)
    ensures ReadFields(done, FieldTokens(fields)) == Ok(done + fields)
    decreases |fields|
  {
    if fields == [] {
      assert done + fields == done;
    } else {
      var all := done + fields;
      assert all[|done|] == fields[0];
      forall i | 0 <= i < |done| ensures done[i].0 != fields[0].0 {
        assert all[i] == done[i];
      }
      FieldTokenReads(done, fields[0]);
      assert FieldTokens(fields)[1..] == FieldTokens(fields[1..]);
      assert done + [fields[0]] + fields[1..] == all;
      FieldsRead(done + [fields[0]], fields[1..]);
    }
  }

  lemma FindLastStar(payload: string, crc: string)
    requires IsHex4(crc)
    ensures var line := payload + "*" + crc;
            '*' in line && FindLast(line, '*') == |payload|
            && line[..|payload|] == payload && line[|payload| + 1..] == crc
  {
    var line := payload + "*" + crc;
    assert line[|payload|] == '*';
    forall j | |payload| < j < |line| ensures line[j] != '*' {
      assert line[j] == crc[j - |payload| - 1];
      assert HexDigit(line[j]);
    }
  }

  lemma CheckedDecodes(payload: string)
    requires Ascii(payload)
    ensures Unterminated(Checked(payload)) == payload + "*" + Hex4(Crc16(payload))
    ensures DecodeLine(payload + "*" + Hex4(Crc16(payload))) == ReadTokens(Split(payload, '|'))
  {
    hide Hex4, ParseHex4, Crc16;
    var crc := Hex4(Crc16(payload));
    Hex4RoundTrip(Crc16(payload));
    var line := payload + "*" + crc;
    var data := Checked(payload);
    assert data == line + "\n" && data[..|data| - 1] == line;
    assert line[|line| - 1] == crc[3] && HexDigit(crc[3]);
    FindLastStar(payload, crc);
    assert Ascii(line) by {
      assert forall i :: 0 <= i < 4 ==> HexDigit(crc[i]);
    }
  }

  /** Decoding undoes encoding: every valid frame within the size limit comes
      back exactly, fields in order. */
  lemma DecodeEncode(f: Frame)
    requires Encode(f).Ok?
    ensures Decode(Encode(f).value) == Ok(f)
  {
    hide Hex4, Crc16;
    var payload := Payload(f);
    PayloadChars(f);
    CheckedDecodes(payload);
    SplitJoin(Tokens(f), '|');
    FieldsRead([], f.fields);
    assert [] + f.fields == f.fields;
    assert Tokens(f)[4..] == FieldTokens(f.fields);
    var data := Checked(payload);
    assert data[|data| - 1] == '\n';
  }

  // ---- the other direction ----

  lemma ReadFieldShape(fields: seq<(string, string)>, token: string)
    requires ReadField(fields, token).Ok?
    ensures var f := ReadField(fields, token).value;
            token == FieldToken(f) && IsKey(f.0) && IsValue(f.1) && !HasKey(fields, f.0)
  {
    var i := Find(token, '=');
    assert token == token[..i] + "=" + token[i + 1..];
  }

  lemma {:induction false} ReadFieldsShape(done: seq<(string, string)>, tokens: seq<string>)
    requires ValidFields(done) && ReadFields(done, tokens).Ok?
    ensures var fields := ReadFields(done, tokens).value;
            ValidFields(fields) && done <= fields && FieldTokens(fields[|done|..]) == tokens
    decreases |tokens|
  {
    if tokens == [] {
    } else {
      ReadFieldShape(done, tokens[0]);
      hide ReadField, IsKey, IsValue, FieldToken;
      var field := ReadField(done, tokens[0]).value;
      forall i | 0 <= i < |done| ensures done[i].0 != field.0 {
        assert !HasKey(done, field.0);
      }
      ReadFieldsShape(done + [field], tokens[1..]);
      var fields := ReadFields(done, tokens).value;
      assert done + [field] <= fields;
      assert fields[|done|] == field;
      assert fields[|done|..] == [field] + fields[|done| + 1..];
      assert FieldTokens(fields[|done|..]) == [FieldToken(field)] + FieldTokens(fields[|done| + 1..]);
    }
  }

  lemma NoFields()
    ensures ValidFields([])
  {
  }

  lemma ReadTokensShape(tokens: seq<string>)
    requires tokens != [] && ReadTokens(tokens).Ok?
    ensures var f := ReadTokens(tokens).value;
            ValidHeader(f) && ValidFields(f.fields) && Tokens(f) == tokens
  {
    hide ReadFields, FieldTokens, IsKind, IsRequestId, IsOperation, ValidFields;
    NoFields();
    ReadFieldsShape([], tokens[4..]);
    var f := ReadTokens(tokens).value;
    assert f.fields[0..] == f.fields;
    assert tokens == [tokens[0], tokens[1], tokens[2], tokens[3]] + tokens[4..];
  }

  lemma DecodeLineShape(line: string)
    requires DecodeLine(line).Ok?
    ensures var f := DecodeLine(line).value;
            ValidHeader(f) && ValidFields(f.fields) && line + "\n" == Checked(Payload(f))
  {
    hide Crc16, Hex4, ParseHex4;
    var star := FindLast(line, '*');
    var payload := line[..star];
    JoinSplit(payload, '|');
    ReadTokensShape(Split(payload, '|'));
    ParseHex4RoundTrip(line[star + 1..]);
    assert line == payload + "*" + line[star + 1..];
  }

  predicate EndsWithCr(data: string) {
    |data| >= 2 && data[|data| - 2] == '\r'
  }

  /** Encoding undoes decoding: whatever is accepted decodes to a valid frame
      whose encoding is the accepted bytes themselves, unless the optional CR
      came before the LF; then it is those bytes without it. */
  lemma EncodeDecode(data: string)
    requires Decode(data).Ok?
    ensures var f := Decode(data).value;
            && Encode(f) == Ok(Unterminated(data) + "\n")
            && (Encode(f) == Ok(data) <==> !EndsWithCr(data))
  {
    hide Crc16, Hex4, DecodeLine, FindLast, Ascii;
    DecodeLineShape(Unterminated(data));
    assert data == data[..|data| - 1] + "\n";
  }

  /** So the accepted frames are exactly the encodings of valid frames, with an
      optional CR before the LF. */
  lemma AcceptedExactly(data: string, f: Frame)
    requires |data| <= MAX_FRAME_BYTES
    ensures Decode(data) == Ok(f) <==>
              data != [] && data[|data| - 1] == '\n' && Encode(f) == Ok(Unterminated(data) + "\n")
  {
    hide DecodeLine, Payload, Checked, ValidHeader, ValidFields;
    if Decode(data) == Ok(f) {
      EncodeDecode(data);
    }
    if data != [] && data[|data| - 1] == '\n' && Encode(f) == Ok(Unterminated(data) + "\n") {
      DecodeEncode(f);
      var bare := Unterminated(data) + "\n";
      NoCarriageReturn(f);
      assert Unterminated(bare) == Unterminated(data);
    }
  }

  lemma NoCarriageReturn(f: Frame)
    requires Encode(f).Ok?
    ensures !EndsWithCr(Encode(f).value)
  {
    Hex4RoundTrip(Crc16(Payload(f)));
    var crc := Hex4(Crc16(Payload(f)));
    assert Encode(f).value[|Encode(f).value| - 2] == crc[3];
  }

  // ---- damage ----

  /** A frame whose payload was damaged within two adjacent bytes, its check
      field intact, never decodes. */
  lemma DamagedFrameRejected(f: Frame, before: string, x: string, y: string, rest: string)
    requires Encode(f).Ok? && Payload(f) == before + x + rest
    requires |x| == |y| <= 2 && x != y && Octets(x) && Octets(y)
    ensures var damaged := before + y + rest + "*" + Hex4(Crc16(Payload(f))) + "\n";
            Decode(damaged) == Err(if Ascii(y) then BadCrc else Malformed)
  {
    hide Crc16, Hex4, Decode, Payload, Ascii, Octets, ValidFields;
    PayloadAscii(f);
    TwoByteBurstDetected(before, x, y, rest);
    DamagedLine(Payload(f), before + y + rest);
    AsciiSplit(before, x, rest);
    AsciiSplit(before, y, rest);
  }

  lemma PayloadAscii(f: Frame)
    requires ValidHeader(f) && ValidFields(f.fields)
    ensures Ascii(Payload(f))
  {
    hide Payload;
    PayloadChars(f);
  }

  lemma AsciiSplit(before: string, y: string, rest: string)
    ensures Ascii(before + y + rest) <==> Ascii(before) && Ascii(y) && Ascii(rest)
  {
    var s := before + y + rest;
    assert forall i :: 0 <= i < |before| ==> s[i] == before[i];
    assert forall i :: 0 <= i < |y| ==> s[|before| + i] == y[i];
    assert forall i :: 0 <= i < |rest| ==> s[|before + y| + i] == rest[i];
  }

  lemma DamagedLine(payload: string, other: string)
    requires Crc16(payload) != Crc16(other) && |payload| == |other| && |Checked(payload)| <= MAX_FRAME_BYTES
    ensures Decode(other + "*" + Hex4(Crc16(payload)) + "\n") == Err(if Ascii(other) then BadCrc else Malformed)
  {
    hide Hex4, ParseHex4, Crc16;
    var crc := Hex4(Crc16(payload));
    Hex4RoundTrip(Crc16(payload));
    var line := other + "*" + crc;
    var data := line + "\n";
    assert data[..|data| - 1] == line;
    assert line[|line| - 1] == crc[3] && HexDigit(crc[3]);
    FindLastStar(other, crc);
    assert forall i :: 0 <= i < 4 ==> HexDigit(crc[i]);
    AsciiSplit(other, "*", crc);
    assert other + "*" + crc == line;
  }

  /** Nor does one with an odd number of payload bits flipped. */
  lemma OddlyFlippedFrameRejected(f: Frame, other: string)
    requires Encode(f).Ok? && |other| == |Payload(f)| && Differences(Bits(Payload(f)), Bits(other)) % 2 == 1
    ensures Decode(other + "*" + Hex4(Crc16(Payload(f))) + "\n") == Err(if Ascii(other) then BadCrc else Malformed)
  {
    OddErrorDetected(Payload(f), other);
    DamagedLine(Payload(f), other);
  }
}
