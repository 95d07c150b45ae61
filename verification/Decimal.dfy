/** Decimal text as the firmware prints and reads it (main.cpp) and as the host reads it. */
module Decimal {
  import opened Common
  import opened Frames

  function DigitValue(c: char): (n: nat)
    requires Digit(c)
    ensures n < 10
  {
    c as int - '0' as int
  }

  function DigitChar(n: nat): (c: char)
    requires n < 10
    ensures Digit(c) && DigitValue(c) == n
  {
    ('0' as int + n) as char
  }

  predicate AllDigits(s: string) {
    forall i :: 0 <= i < |s| ==> Digit(s[i])
  }

  predicate IsDecimal(s: string) {
    s != "" && AllDigits(s)
  }

  /** The number a string of digits denotes. */
  function Value(s: string): nat
    requires AllDigits(s)
  {
    if s == "" then 0 else 10 * Value(s[..|s| - 1]) + DigitValue(s[|s| - 1])
  }

  /** The shortest decimal text of a number. */
  function Print(n: nat): string {
    if n < 10 then [DigitChar(n)] else Print(n / 10) + [DigitChar(n % 10)]
  }

  lemma {:induction false} ValuePrint(n: nat)
    ensures IsDecimal(Print(n)) && Value(Print(n)) == n
    decreases n
  {
    if n < 10 {
      assert [DigitChar(n)][..0] == "";
    } else {
      ValuePrint(n / 10);
      assert Print(n)[..|Print(n)| - 1] == Print(n / 10);
    }
  }

  function Pow10(k: nat): nat {
    if k == 0 then 1 else 10 * Pow10(k - 1)
  }

  /** A number below 10^k prints in at most k characters, and only such a number. */
  lemma {:induction false} PrintWidth(n: nat, k: nat)
    requires k >= 1
    ensures |Print(n)| <= k <==> n < Pow10(k)
    decreases k
  {
    if k == 1 {
      assert Pow10(1) == 10 * Pow10(0);
    } else if n >= 10 {
      PrintWidth(n / 10, k - 1);
    } else {
      Pow10AtLeast(k);
    }
  }

  lemma {:induction false} Pow10AtLeast(k: nat)
    requires k >= 1
    ensures Pow10(k) >= 10
  {
    if k > 1 {
      Pow10AtLeast(k - 1);
    }
  }

  lemma PowersOfTen()
    ensures Pow10(10) == 1_00000_00000
    ensures Pow10(19) == 1_0000_00000_00000_00000
    ensures Pow10(20) == 1_00000_00000_00000_00000
  {
    assert Pow10(5) == 1_00000;
    assert Pow10(10) == 1_00000_00000;
    assert Pow10(15) == 1_00000_00000_00000;
    assert Pow10(19) == 1_0000_00000_00000_00000;
  }

  /** How wide each machine integer prints: u32 in 10 characters, a result's
      pulses in 19, u64 in 20. */
  lemma MachineWidths(n: nat)
    ensures 1 <= |Print(n)|
    ensures n <= UINT32_MAX ==> |Print(n)| <= 10
    ensures n <= INT64_MAX ==> |Print(n)| <= 19
    ensures n <= UINT64_MAX ==> |Print(n)| <= 20
    ensures n < 10 ==> |Print(n)| == 1
  {
    PowersOfTen();
    PrintWidth(n, 10);
    PrintWidth(n, 19);
    PrintWidth(n, 20);
    ValuePrint(n);
  }

  /** Digits come off the low end into the buffer's high end, then move to its start. */
  method U64ToAscii(value: U64, output: array<char>)
    requires output.Length == 21
    modifies output
    ensures |Print(value)| <= 20 && output[..|Print(value)|] == Print(value) && output[|Print(value)|] == '\0'
  {
    MachineWidths(value);
    PrintHasNoNul(value);
    output[20] := '\0';
    var cursor := FillFromEnd(value, output);
    assert output[cursor..] == output[cursor..20] + ['\0'];
    MoveToStart(output, cursor, Print(value));
  }

  method FillFromEnd(value: U64, output: array<char>) returns (cursor: nat)
    requires output.Length == 21 && output[20] == '\0' && |Print(value)| <= 20
    modifies output
    ensures cursor <= 19 && output[20] == '\0' && output[cursor..20] == Print(value)
  {
    hide Print, DigitChar;
    var left: nat := value;
    SplitDigits(left);
    cursor := 19;
    output[cursor] := DigitChar(left % 10);
    left := left / 10;
    while left > 0
      invariant cursor <= 19 && output[20] == '\0'
      invariant Digits(left) + output[cursor..20] == Print(value)
      decreases left
    {
      SplitDigits(left);
      ghost var tail := output[cursor..20];
      cursor := cursor - 1;
      output[cursor] := DigitChar(left % 10);
      assert output[cursor..20] == [DigitChar(left % 10)] + tail;
      left := left / 10;
    }
  }

  method MoveToStart(output: array<char>, start: nat, ghost text: string)
    requires output.Length == 21 && start <= 20 && output[start..] == text + ['\0']
    requires forall j :: 0 <= j < |text| ==> text[j] != '\0'
    modifies output
    ensures |text| <= 20 && output[..|text|] == text && output[|text|] == '\0'
  {
    ghost var whole := text + ['\0'];
    var destination, cursor := 0, start;
    while output[cursor] != '\0'
      invariant cursor == start + destination && destination <= |text| == 20 - start
      invariant output[..destination] == whole[..destination]
      invariant output[cursor..] == whole[destination..]
      decreases 20 - cursor
    {
      assert output[cursor] == output[cursor..][0] == whole[destination];
      output[destination] := output[cursor];
      destination, cursor := destination + 1, cursor + 1;
    }
    assert output[cursor] == output[cursor..][0] == whole[destination];
    output[destination] := output[cursor];
  }

  /** The text of what is left of a number, empty once nothing is left. */
  function Digits(n: nat): string {
    if n == 0 then "" else Print(n)
  }

  lemma SplitDigits(n: nat)
    ensures Print(n) == Digits(n / 10) + [DigitChar(n % 10)]
  {
  }

  lemma PrintHasNoNul(n: nat)
    ensures forall j :: 0 <= j < |Print(n)| ==> Print(n)[j] != '\0'
  {
    ValuePrint(n);
  }

  /** `parse_u32`: an overflow check before every digit. */
  method ParseU32(text: string) returns (parsed: Option<U32>)
    ensures parsed == if IsDecimal(text) && Value(text) <= UINT32_MAX then Some(Value(text)) else None
  {
    if text == "" {
      return None;
    }
    var value: U32 := 0;
    for cursor := 0 to |text|
      invariant AllDigits(text[..cursor]) && value == Value(text[..cursor])
    {
      if !Digit(text[cursor]) {
        return None;
      }
      var digit := DigitValue(text[cursor]);
      assert text[..cursor + 1][..cursor] == text[..cursor];
      assert AllDigits(text[..cursor + 1]);
      if value > (UINT32_MAX - digit) / 10 {
        if AllDigits(text) {
          PrefixValue(text, cursor + 1);
        }
        return None;
      }
      value := value * 10 + digit;
    }
    assert text[..|text|] == text;
    parsed := Some(value);
  }

  lemma {:induction false} PrefixValue(s: string, k: nat)
    requires AllDigits(s) && k <= |s|
    ensures Value(s[..k]) <= Value(s)
    decreases |s|
  {
    if k < |s| {
      PrefixValue(s[..|s| - 1], k);
      assert s[..|s| - 1][..k] == s[..k];
    } else {
      assert s[..k] == s;
    }
  }

  /** The reader accepts what the printer writes, and nothing is lost in between. */
  lemma PrintedReadsBack(n: nat)
    ensures IsDecimal(Print(n)) && (Value(Print(n)) <= UINT32_MAX <==> n <= UINT32_MAX) && Value(Print(n)) == n
  {
    ValuePrint(n);
  }

  // ---- Python's int() on a wire value ----

  predicate IntBody(s: string) {
    && s != "" && Digit(s[0]) && Digit(s[|s| - 1])
    && (forall i :: 0 <= i < |s| ==> Digit(s[i]) || s[i] == '_')
    && (forall i :: 0 < i < |s| ==> s[i - 1] != '_' || s[i] != '_')
  }

  function WithoutUnderscores(s: string): (t: string)
    ensures (forall i :: 0 <= i < |s| ==> Digit(s[i]) || s[i] == '_') ==> AllDigits(t)
  {
    if s == "" then "" else if s[0] == '_' then WithoutUnderscores(s[1..]) else [s[0]] + WithoutUnderscores(s[1..])
  }

  /** int(text): an optional minus sign, digits, single underscores between
      digits; a wire value can hold nothing else int() accepts. */
  function PyInt(s: string): Option<int> {
    if s != "" && s[0] == '-' then
      if IntBody(s[1..]) then Some(-(Value(WithoutUnderscores(s[1..])) as int)) else None
    else if IntBody(s) then Some(Value(WithoutUnderscores(s)))
    else None
  }

  lemma {:induction false} DigitsHaveNoUnderscore(s: string)
    requires AllDigits(s)
    ensures WithoutUnderscores(s) == s
    decreases |s|
  {
    if s != "" {
      DigitsHaveNoUnderscore(s[1..]);
    }
  }

  lemma PyIntPrint(n: nat)
    ensures PyInt(Print(n)) == Some(n)
  {
    ValuePrint(n);
    DigitsHaveNoUnderscore(Print(n));
  }
}
