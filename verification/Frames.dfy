/** The host's KP1 codec (protocol/frames.py). Wire data are strings of bytes. */
module Frames {
  import opened Common
  import opened Crc

  const MAX_FRAME_BYTES: int := 256

  datatype FrameErrorCode = Malformed | BadCrc | TooLong | UnsupportedVersion

  /** `fields` is the dictionary in insertion order. */
  datatype Frame = Frame(kind: string, requestId: string, operation: string, fields: seq<(string, string)>)

  // ---- token shapes ----

  predicate Digit(c: char) { '0' <= c <= '9' }

  predicate HexDigit(c: char) { Digit(c) || 'A' <= c <= 'F' }

  predicate OperationChar(c: char) { Digit(c) || 'A' <= c <= 'Z' || c == '_' }

  predicate KeyChar(c: char) { Digit(c) || 'a' <= c <= 'z' || c == '_' }

  predicate ValueChar(c: char) {
    Digit(c) || 'A' <= c <= 'Z' || 'a' <= c <= 'z' || c == '.' || c == '_' || c == ':' || c == '-'
  }

  predicate IsKind(s: string) { s == "Q" || s == "R" || s == "E" }

  predicate IsRequestId(s: string) { |s| == 8 && forall i :: 0 <= i < |s| ==> HexDigit(s[i]) }

  predicate IsOperation(s: string) { 1 <= |s| <= 16 && forall i :: 0 <= i < |s| ==> OperationChar(s[i]) }

  predicate IsKey(s: string) { 1 <= |s| <= 16 && forall i :: 0 <= i < |s| ==> KeyChar(s[i]) }

  predicate IsValue(s: string) { 1 <= |s| <= 64 && forall i :: 0 <= i < |s| ==> ValueChar(s[i]) }

  predicate Ascii(s: string) { forall i :: 0 <= i < |s| ==> s[i] as int < 128 }

  predicate HasKey(fields: seq<(string, string)>, key: string) {
    exists i :: 0 <= i < |fields| && fields[i].0 == key
  }

  /** Keys and values are well formed and no key comes twice. */
  predicate ValidFields(fields: seq<(string, string)>) {
    && (forall i :: 0 <= i < |fields| ==> IsKey(fields[i].0) && IsValue(fields[i].1))
    && (forall i, j :: 0 <= i < j < |fields| ==> fields[i].0 != fields[j].0)
  }

  predicate ValidHeader(f: Frame) {
    IsKind(f.kind) && IsRequestId(f.requestId) && IsOperation(f.operation)
  }

  // ---- splitting and joining ----

  function Find(s: string, c: char): (i: nat)
    ensures i <= |s|
    ensures forall j :: 0 <= j < i ==> s[j] != c
    ensures i < |s| ==> s[i] == c
  {
    if s == [] || s[0] == c then 0
    else
      var i := Find(s[1..], c);
      assert forall j :: 0 < j < i + 1 ==> s[j] == s[1..][j - 1];
      i + 1
  }

  function FindLast(s: string, c: char): (i: int)
    requires c in s
    ensures 0 <= i < |s| && s[i] == c
    ensures forall j :: i < j < |s| ==> s[j] != c
  {
    if s[|s| - 1] == c then |s| - 1 else FindLast(s[..|s| - 1], c)
  }

  function Split(s: string, c: char): (tokens: seq<string>)
    ensures tokens != []
    decreases |s|
  {
    var i := Find(s, c);
    if i == |s| then [s] else [s[..i]] + Split(s[i + 1..], c)
  }

  function Join(tokens: seq<string>, c: char): string
    requires tokens != []
    decreases |tokens|
  {
    if |tokens| == 1 then tokens[0] else tokens[0] + [c] + Join(tokens[1..], c)
  }

  function FieldToken(field: (string, string)): string {
    field.0 + "=" + field.1
  }

  function FieldTokens(fields: seq<(string, string)>): (tokens: seq<string>)
    ensures |tokens| == |fields|
    ensures forall i :: 0 <= i < |tokens| ==> tokens[i] == FieldToken(fields[i])
  {
    seq(|fields|, i requires 0 <= i < |fields| => FieldToken(fields[i]))
  }

  function Payload(f: Frame): string {
    Join(["KP1", f.kind, f.requestId, f.operation] + FieldTokens(f.fields), '|')
  }

  // ---- the check field ----

  const HEX: string := "0123456789ABCDEF"

  function NibbleValue(b: seq<bool>): (n: nat)
    requires |b| == 4
    ensures n < 16
  {
    (if b[0] then 8 else 0) + (if b[1] then 4 else 0) + (if b[2] then 2 else 0) + (if b[3] then 1 else 0)
  }

  function Nibble(n: nat): (b: seq<bool>)
    requires n < 16
    ensures |b| == 4
  {
    [n >= 8, n % 8 >= 4, n % 4 >= 2, n % 2 == 1]
  }

  function HexChar(n: nat): char
    requires n < 16
  {
    HEX[n]
  }

  function HexCharValue(c: char): nat
    requires HexDigit(c)
  {
    if Digit(c) then c as int - '0' as int else c as int - 'A' as int + 10
  }

  function Hex4(w: Word): (s: string)
    ensures |s| == 4
  {
    [HexChar(NibbleValue(w[..4])), HexChar(NibbleValue(w[4..8])),
     HexChar(NibbleValue(w[8..12])), HexChar(NibbleValue(w[12..]))]
  }

  predicate IsHex4(s: string) {
    |s| == 4 && forall i :: 0 <= i < 4 ==> HexDigit(s[i])
  }

  function ParseHex4(s: string): Word
    requires IsHex4(s)
  {
    Nibble(HexCharValue(s[0])) + Nibble(HexCharValue(s[1])) + Nibble(HexCharValue(s[2])) + Nibble(HexCharValue(s[3]))
  }

  function Checked(payload: string): string {
    payload + "*" + Hex4(Crc16(payload)) + "\n"
  }

  // ---- encode and decode ----

  function Encode(f: Frame): Result<string, FrameErrorCode> {
    if !ValidHeader(f) || !ValidFields(f.fields) then Err(Malformed)
    else if |Checked(Payload(f))| > MAX_FRAME_BYTES then Err(TooLong)
    else Ok(Checked(Payload(f)))
  }

  /** One field token, given the fields already read. */
  function ReadField(fields: seq<(string, string)>, token: string): Result<(string, string), FrameErrorCode> {
    var i := Find(token, '=');
    if i == |token| || '=' in token[i + 1..] then Err(Malformed)
    else if HasKey(fields, token[..i]) || !IsKey(token[..i]) || !IsValue(token[i + 1..]) then Err(Malformed)
    else Ok((token[..i], token[i + 1..]))
  }

  function ReadFields(fields: seq<(string, string)>, tokens: seq<string>): Result<seq<(string, string)>, FrameErrorCode>
    decreases |tokens|
  {
    if tokens == [] then Ok(fields)
    else
      match ReadField(fields, tokens[0])
      case Err(e) => Err(e)
      case Ok(field) => ReadFields(fields + [field], tokens[1..])
  }

  function ReadTokens(tokens: seq<string>): Result<Frame, FrameErrorCode>
    requires tokens != []
  {
    if |tokens| < 4 || tokens[0] != "KP1" then
      Err(if |tokens[0]| >= 2 && tokens[0][..2] == "KP" then UnsupportedVersion else Malformed)
    else if !IsKind(tokens[1]) || !IsRequestId(tokens[2]) || !IsOperation(tokens[3]) then Err(Malformed)
    else
      match ReadFields([], tokens[4..])
      case Err(e) => Err(e)
      case Ok(fields) => Ok(Frame(tokens[1], tokens[2], tokens[3], fields))
  }

  /** The line without its LF and one optional CR before it. */
  function Unterminated(data: string): string
    requires data != []
  {
    var line := data[..|data| - 1];
    if line != [] && line[|line| - 1] == '\r' then line[..|line| - 1] else line
  }

  function DecodeLine(line: string): Result<Frame, FrameErrorCode> {
    if !Ascii(line) || '*' !in line then Err(Malformed)
    else
      var star := FindLast(line, '*');
      if !IsHex4(line[star + 1..]) then Err(Malformed)
      else if Crc16(line[..star]) != ParseHex4(line[star + 1..]) then Err(BadCrc)
      else ReadTokens(Split(line[..star], '|'))
  }

  function Decode(data: string): Result<Frame, FrameErrorCode> {
    if |data| > MAX_FRAME_BYTES then Err(TooLong)
    else if data == [] || data[|data| - 1] != '\n' then Err(Malformed)
    else DecodeLine(Unterminated(data))
  }

  // ---- the loops ----

  method EncodeFrame(f: Frame) returns (r: Result<string, FrameErrorCode>)
    ensures r == Encode(f)
  {
    if !IsKind(f.kind) || !IsRequestId(f.requestId) || !IsOperation(f.operation) {
      return Err(Malformed);
    }
    var tokens := ["KP1", f.kind, f.requestId, f.operation];
    for i := 0 to |f.fields|
      invariant tokens == ["KP1", f.kind, f.requestId, f.operation] + FieldTokens(f.fields[..i])
      invariant ValidFields(f.fields[..i])
    {
      var (key, value) := f.fields[i];
      if HasKey(f.fields[..i], key) || !IsKey(key) || !IsValue(value) {
        return Err(Malformed);
      }
      tokens := tokens + [key + "=" + value];
      assert f.fields[..i + 1] == f.fields[..i] + [f.fields[i]];
      assert FieldTokens(f.fields[..i + 1]) == FieldTokens(f.fields[..i]) + [FieldToken(f.fields[i])];
    }
    assert f.fields[..|f.fields|] == f.fields;
    var payload := Join(tokens, '|');
    var crc := ComputeCrc(payload);
    var encoded := payload + "*" + Hex4(crc) + "\n";
    if |encoded| > MAX_FRAME_BYTES {
      return Err(TooLong);
    }
    r := Ok(encoded);
  }

  method DecodeFrame(data: string) returns (r: Result<Frame, FrameErrorCode>)
    ensures r == Decode(data)
  {
    if |data| > MAX_FRAME_BYTES {
      return Err(TooLong);
    }
    if data == [] || data[|data| - 1] != '\n' {
      return Err(Malformed);
    }
    var line := Unterminated(data);
    if !Ascii(line) || '*' !in line {
      return Err(Malformed);
    }
    var star := FindLast(line, '*');
    if !IsHex4(line[star + 1..]) {
      return Err(Malformed);
    }
    var crc := ComputeCrc(line[..star]);
    if crc != ParseHex4(line[star + 1..]) {
      return Err(BadCrc);
    }
    var tokens := Split(line[..star], '|');
    if |tokens| < 4 || tokens[0] != "KP1" {
      return Err(if |tokens[0]| >= 2 && tokens[0][..2] == "KP" then UnsupportedVersion else Malformed);
    }
    if !IsKind(tokens[1]) || !IsRequestId(tokens[2]) || !IsOperation(tokens[3]) {
      return Err(Malformed);
    }
    var fields: seq<(string, string)> := [];
    var rest := tokens[4..];
    for i := 0 to |rest|
      invariant ReadFields(fields, rest[i..]) == ReadFields([], rest)
    {
      assert rest[i..][0] == rest[i] && rest[i..][1..] == rest[i + 1..];
      match ReadField(fields, rest[i]) {
        case Err(e) => return Err(e);
        case Ok(field) => fields := fields + [field];
      }
    }
    r := Ok(Frame(tokens[1], tokens[2], tokens[3], fields));
  }
}
