/** The Nano's frame parser (protocol.cpp): C strings, strtok and a bound of
    twelve fields, over the same wire format. */
module NanoParser {
  import opened Common
  import opened Crc
  import opened Frames
  import opened RoundTrip

  const MAX_FIELDS: int := 12

  /** What a C string function sees: the bytes before the first NUL. */
  function CString(s: string): string {
    s[..Find(s, '\0')]
  }

  function NonEmpty(tokens: seq<string>): seq<string> {
    if tokens == [] then []
    else if tokens[0] == "" then NonEmpty(tokens[1..])
    else [tokens[0]] + NonEmpty(tokens[1..])
  }

  /** The tokens strtok_r yields: the pieces between separators, empty ones skipped. */
  function Pieces(s: string): seq<string> {
    NonEmpty(Split(s, '|'))
  }

  /** One strtok_r call: the next token, if any, and the saved rest. */
  function StrTok(save: string): (Option<string>, string)
    decreases |save|
  {
    if save == "" then (None, "")
    else if save[0] == '|' then StrTok(save[1..])
    else
      var i := Find(save, '|');
      (Some(save[..i]), if i == |save| then "" else save[i + 1..])
  }

  function NanoFields(fields: seq<(string, string)>, tokens: seq<string>): Result<seq<(string, string)>, FrameErrorCode>
    decreases |tokens|
  {
    if tokens == [] then Ok(fields)
    else if |fields| >= MAX_FIELDS then Err(Malformed)
    else
      match ReadField(fields, tokens[0])
      case Err(e) => Err(e)
      case Ok(field) => NanoFields(fields + [field], tokens[1..])
  }

  function NanoTokens(tokens: seq<string>): Result<Frame, FrameErrorCode> {
    if tokens == [] then Err(Malformed)
    else if tokens[0] != "KP1" then
      Err(if |tokens[0]| >= 2 && tokens[0][..2] == "KP" then UnsupportedVersion else Malformed)
    else if |tokens| < 2 || !IsKind(tokens[1]) then Err(Malformed)
    else if |tokens| < 3 || !IsRequestId(tokens[2]) then Err(Malformed)
    else if |tokens| < 4 || !IsOperation(tokens[3]) then Err(Malformed)
    else
      match NanoFields([], tokens[4..])
      case Err(e) => Err(e)
      case Ok(fields) => Ok(Frame(tokens[1], tokens[2], tokens[3], fields))
  }

  function NanoParse(data: string): Result<Frame, FrameErrorCode> {
    if |data| > MAX_FRAME_BYTES then Err(TooLong)
    else if data == [] || data[|data| - 1] != '\n' then Err(Malformed)
    else
      var line := CString(Unterminated(data));
      if '*' !in line then Err(Malformed)
      else
        var star := FindLast(line, '*');
        if !IsHex4(line[star + 1..]) then Err(Malformed)
        else if Crc16(line[..star]) != ParseHex4(line[star + 1..]) then Err(BadCrc)
        else NanoTokens(Pieces(line[..star]))
  }

  lemma {:induction false} StrTokPieces(save: string)
    ensures var (token, rest) := StrTok(save);
            if Pieces(save) == [] then token == None
            else token == Some(Pieces(save)[0]) && Pieces(rest) == Pieces(save)[1..]
    decreases |save|
  {
    if save != "" {
      var i := Find(save, '|');
      if save[0] == '|' {
        assert save[..0] == "" && Split(save, '|') == [""] + Split(save[1..], '|');
        assert Split(save, '|')[1..] == Split(save[1..], '|');
        StrTokPieces(save[1..]);
      } else if i == |save| {
        assert Split(save, '|') == [save] && save[..i] == save;
        assert Split(save, '|')[1..] == [];
      } else {
        assert Split(save, '|')[1..] == Split(save[i + 1..], '|');
      }
    }
  }

  /** The parser's own token-by-token loop. */
  method ParseFrame(data: string) returns (r: Result<Frame, FrameErrorCode>)
    ensures r == NanoParse(data)
  {
    if |data| > MAX_FRAME_BYTES {
      return Err(TooLong);
    }
    if data == [] || data[|data| - 1] != '\n' {
      return Err(Malformed);
    }
    var line := CString(Unterminated(data));
    if '*' !in line {
      return Err(Malformed);
    }
    var star := FindLast(line, '*');
    if !IsHex4(line[star + 1..]) {
      return Err(Malformed);
    }
    var crc := ComputeCrc(line[..star]);
    if crc != ParseHex4(line[star + 1..]) {
      return Err(BadCrc);
    }
    r := ParseTokens(line[..star]);
  }

  method ParseTokens(payload: string) returns (r: Result<Frame, FrameErrorCode>)
    ensures r == NanoTokens(Pieces(payload))
  {
    hide Pieces, StrTok;
    ghost var all := Pieces(payload);
    StrTokPieces(payload);
    var (token, save) := StrTok(payload);
    if token.None? || token.value != "KP1" {
      return Err(if token.Some? && |token.value| >= 2 && token.value[..2] == "KP" then UnsupportedVersion else Malformed);
    }
    StrTokPieces(save);
    var (kind, save1) := StrTok(save);
    if kind.None? || !IsKind(kind.value) {
      return Err(Malformed);
    }
    StrTokPieces(save1);
    var (requestId, save2) := StrTok(save1);
    if requestId.None? || !IsRequestId(requestId.value) {
      return Err(Malformed);
    }
    StrTokPieces(save2);
    var (operation, save3) := StrTok(save2);
    if operation.None? || !IsOperation(operation.value) {
      return Err(Malformed);
    }
    assert Pieces(save3) == all[4..];
    var fields := ParseFields(save3);
    match fields {
      case Err(e) => r := Err(e);
      case Ok(list) => r := Ok(Frame(kind.value, requestId.value, operation.value, list));
    }
  }

  method ParseFields(text: string) returns (r: Result<seq<(string, string)>, FrameErrorCode>)
    ensures r == NanoFields([], Pieces(text))
  {
    hide Pieces, StrTok, ReadField;
    var fields: seq<(string, string)> := [];
    StrTokPieces(text);
    var (token, save) := StrTok(text);
    ghost var left := Pieces(text);
    while token.Some?
      invariant if left == [] then token == None else token == Some(left[0]) && Pieces(save) == left[1..]
      invariant NanoFields([], Pieces(text)) == NanoFields(fields, left)
      decreases |left|
    {
      if |fields| >= MAX_FIELDS {
        return Err(Malformed);
      }
      match ReadField(fields, token.value) {
        case Err(e) => return Err(e);
        case Ok(field) => fields := fields + [field];
      }
      left := left[1..];
      StrTokPieces(save);
      var (next, rest) := StrTok(save);
      token, save := next, rest;
    }
    r := Ok(fields);
  }

  // ---- agreement with the host ----

  lemma {:induction false} NonEmptyAll(tokens: seq<string>)
    requires forall i :: 0 <= i < |tokens| ==> tokens[i] != ""
    ensures NonEmpty(tokens) == tokens
    decreases |tokens|
  {
    if tokens != [] {
      NonEmptyAll(tokens[1..]);
    }
  }

  lemma {:induction false} NanoFieldsAgree(fields: seq<(string, string)>, tokens: seq<string>)
    requires ReadFields(fields, tokens).Ok? && |fields| <= MAX_FIELDS
    ensures NanoFields(fields, tokens) ==
              if |fields| + |tokens| <= MAX_FIELDS then ReadFields(fields, tokens) else Err(Malformed)
    decreases |tokens|
  {
    if tokens != [] && |fields| < MAX_FIELDS {
      NanoFieldsAgree(fields + [ReadField(fields, tokens[0]).value], tokens[1..]);
    }
  }

  /** Every frame the host encodes or accepts, the Nano parses to the same kind,
      request, operation and fields, exactly when it has at most twelve fields. */
  lemma NanoAgrees(data: string)
    requires Decode(data).Ok?
    ensures NanoParse(data) ==
              if |Decode(data).value.fields| <= MAX_FIELDS then Decode(data) else Err(Malformed)
  {
    hide Crc16, Hex4, ParseHex4, ReadField, ValidFields, ValidHeader, FindLast;
    var line := Unterminated(data);
    AsciiLineIsCString(data);
    var payload := line[..FindLast(line, '*')];
    var tokens := Split(payload, '|');
    DecodedTokensNonEmpty(payload);
    NonEmptyAll(tokens);
    NanoFieldsAgree([], tokens[4..]);
    ReadFieldsLength([], tokens[4..]);
  }

  lemma {:induction false} ReadFieldsLength(done: seq<(string, string)>, tokens: seq<string>)
    requires ReadFields(done, tokens).Ok?
    ensures |ReadFields(done, tokens).value| == |done| + |tokens|
    decreases |tokens|
  {
    if tokens != [] {
      ReadFieldsLength(done + [ReadField(done, tokens[0]).value], tokens[1..]);
    }
  }

  lemma DecodedTokensNonEmpty(payload: string)
    requires ReadTokens(Split(payload, '|')).Ok?
    ensures forall i :: 0 <= i < |Split(payload, '|')| ==> Split(payload, '|')[i] != ""
  {
    var tokens := Split(payload, '|');
    ReadTokensShape(tokens);
    var f := ReadTokens(tokens).value;
    forall i | 0 <= i < |tokens| ensures tokens[i] != "" {
      assert tokens[i] == Tokens(f)[i];
      if i >= 4 {
        assert tokens[i] == FieldToken(f.fields[i - 4]) && '=' in tokens[i];
      }
    }
  }

  /** An accepted line holds no NUL, so C string functions see all of it. */
  lemma AsciiLineIsCString(data: string)
    requires Decode(data).Ok?
    ensures CString(Unterminated(data)) == Unterminated(data)
  {
    hide Crc16, Hex4, Checked, Payload, DecodeLine;
    var line := Unterminated(data);
    DecodeLineShape(line);
    var f := DecodeLine(line).value;
    CheckedHasNoNul(f);
    forall i | 0 <= i < |line| ensures line[i] != '\0' {
      assert (line + "\n")[i] == line[i];
    }
  }

  lemma CheckedHasNoNul(f: Frame)
    requires ValidHeader(f) && ValidFields(f.fields)
    ensures forall i :: 0 <= i < |Checked(Payload(f))| ==> Checked(Payload(f))[i] != '\0'
  {
    hide Crc16, Hex4, Payload, ValidFields;
    PayloadChars(f);
    Hex4RoundTrip(Crc16(Payload(f)));
    var crc := Hex4(Crc16(Payload(f)));
    assert forall i :: 0 <= i < 4 ==> HexDigit(crc[i]);
  }
}
