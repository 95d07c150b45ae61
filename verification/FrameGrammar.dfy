/** The KP1 grammar in its own letters and numbers. */
module FrameGrammar {
  import opened Common
  import opened Frames
  import opened Decimal
  import opened Wire

  const DIGITS: string := "0123456789"
  const UPPER: string := "ABCDEFGHIJKLMNOPQRSTUVWXYZ"
  const LOWER: string := "abcdefghijklmnopqrstuvwxyz"

  predicate Made(s: string, letters: set<char>, longest: nat) {
    1 <= |s| <= longest && forall c :: c in s ==> c in letters
  }

  function Letters(s: string): set<char> {
    set i | 0 <= i < |s| :: s[i]
  }

  lemma InDigits(c: char)
    ensures c in Letters(DIGITS) <==> Digit(c)
  {
    if Digit(c) { assert DIGITS[c as int - '0' as int] == c; }
  }

  lemma InUpper(c: char)
    ensures c in Letters(UPPER) <==> 'A' <= c <= 'Z'
  {
    if 'A' <= c <= 'Z' { assert UPPER[c as int - 'A' as int] == c; }
  }

  lemma InLower(c: char)
    ensures c in Letters(LOWER) <==> 'a' <= c <= 'z'
  {
    if 'a' <= c <= 'z' { assert LOWER[c as int - 'a' as int] == c; }
  }

  /** What the tokens of a frame are made of. */
  lemma TokensAre(s: string)
    ensures IsKey(s) <==> Made(s, Letters(DIGITS) + Letters(LOWER) + {'_'}, 16)
    ensures IsOperation(s) <==> Made(s, Letters(DIGITS) + Letters(UPPER) + {'_'}, 16)
    ensures IsValue(s) <==> Made(s, Letters(DIGITS) + Letters(UPPER) + Letters(LOWER) + {'.', '_', ':', '-'}, 64)
    ensures IsRequestId(s) <==> |s| == 8 && Made(s, Letters(DIGITS) + {'A', 'B', 'C', 'D', 'E', 'F'}, 8)
    ensures IsKind(s) <==> |s| == 1 && s[0] in {'Q', 'R', 'E'}
  {
    hide Letters;
    forall c: char
      ensures c in Letters(DIGITS) <==> Digit(c)
      ensures c in Letters(UPPER) <==> 'A' <= c <= 'Z'
      ensures c in Letters(LOWER) <==> 'a' <= c <= 'z'
    {
      InDigits(c);
      InUpper(c);
      InLower(c);
    }
    assert |s| == 1 ==> s == [s[0]];
  }

  /** 256 bytes at most, both ways. */
  lemma SizeLimit(data: string, f: Frame)
    ensures |data| > 256 ==> Decode(data) == Err(TooLong)
    ensures ValidHeader(f) && ValidFields(f.fields) ==>
              (|Checked(Payload(f))| <= 256 ==> Encode(f) == Ok(Checked(Payload(f)))) && (|Checked(Payload(f))| > 256 ==> Encode(f) == Err(TooLong))
  {
    hide Payload, Checked, DecodeLine, ValidHeader, ValidFields;
  }

  /** A leading digit, and the rest of the number after it. */
  lemma HexStep(n: nat, digits: nat)
    ensures HexText(n, digits + 1) == HexText(n / 16, digits) + [HexChar(n % 16)]
  {
    hide HexChar;
  }

  lemma {:induction false} HexZeros(digits: nat)
    ensures HexText(0, digits) == seq(digits, _ => '0')
  {
    if digits > 0 {
      HexZeros(digits - 1);
      HexStep(0, digits - 1);
    }
  }

  lemma HexDigits()
    ensures HexChar(1) == '1' && HexChar(0xA) == 'A' && HexChar(2) == '2' && HexChar(0xB) == 'B'
  {
  }

  lemma HexExample()
    ensures HexText(0x1A2B, 16) == "0000000000001A2B"
  {
    hide HexText, HexChar;
    HexDigits();
    HexZeros(12);
    HexStep(0x1, 12);
    HexStep(0x1A, 13);
    HexStep(0x1A2, 14);
    HexStep(0x1A2B, 15);
    assert HexText(0, 12) == "000000000000";
    assert HexText(0x1, 13) == "0000000000001";
    assert HexText(0x1A, 14) == "0000000000001A";
    assert HexText(0x1A2, 15) == "0000000000001A2";
  }

  lemma PrintExample()
    ensures Print(4096) == "4096"
  {
    assert Print(4) == "4";
    assert Print(40) == "40";
    assert Print(409) == "409";
  }

  /** Numbers are written most significant digit first, boots in capitals. */
  lemma NumbersAre()
    ensures Print(4096) == "4096" && HexText(0x1A2B, 16) == "0000000000001A2B"
  {
    hide Print, HexText;
    PrintExample();
    HexExample();
  }
}
