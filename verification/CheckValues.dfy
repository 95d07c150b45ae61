/** Known check values: the register as a machine word, and what it gives. */
module CheckValues {
  import opened Common
  import opened Crc
  import opened Frames
  import opened RoundTrip

  const MASKS: seq<bv16> := [0x8000, 0x4000, 0x2000, 0x1000, 0x0800, 0x0400, 0x0200, 0x0100,
                             0x0080, 0x0040, 0x0020, 0x0010, 0x0008, 0x0004, 0x0002, 0x0001]

  predicate Set(v: bv16, mask: bv16) { v & mask != 0 }

  /** A machine word as a register. */
  function Register(v: bv16): Word {
    seq(16, i requires 0 <= i < 16 => Set(v, MASKS[i]))
  }

  /** The high byte of a word. */
  function HighByte(v: bv16): (bits: seq<bool>)
    ensures |bits| == 8
  {
    seq(8, i requires 0 <= i < 8 => Set(v, MASKS[i]))
  }

  function Shift(v: bv16): bv16 {
    if v & 0x8000 != 0 then (v << 1) ^ 0x1021 else v << 1
  }

  function Shifts(v: bv16, n: nat): bv16
    decreases n
  {
    if n == 0 then v else Shifts(Shift(v), n - 1)
  }

  predicate OneBit(mask: bv16) { mask & (mask - 1) == 0 }

  lemma MaskIs(i: nat)
    requires i < 16
    ensures OneBit(MASKS[i]) && MASKS[i] >> 1 == (if i < 15 then MASKS[i + 1] else 0)
    ensures Set(0x1021, MASKS[i]) == Tap(i) && (i >= 8 ==> MASKS[i] & 0xFF00 == 0)
  {
  }

  lemma ShiftBit(v: bv16, mask: bv16)
    requires OneBit(mask)
    ensures Set(Shift(v), mask) == (Set(v, mask >> 1) != (Set(v, 0x8000) && Set(0x1021, mask)))
  {
    ShiftMask(v, mask);
    if v & 0x8000 != 0 {
      XorBit(v << 1, 0x1021, mask);
    }
  }

  lemma ShiftMask(v: bv16, mask: bv16)
    ensures Set(v << 1, mask) == Set(v, mask >> 1)
  {
  }

  lemma XorBit(v: bv16, b: bv16, mask: bv16)
    requires OneBit(mask)
    ensures Set(v ^ b, mask) == (Set(v, mask) != Set(b, mask))
  {
  }

  lemma LowBit(b: bv16, mask: bv16)
    requires b & 0x00FF == 0 && mask & 0xFF00 == 0
    ensures !Set(b, mask)
  {
  }

  lemma ShiftIsStep(v: bv16)
    ensures Step(Register(v)) == Register(Shift(v))
  {
    forall i | 0 <= i < 16 ensures Step(Register(v))[i] == Register(Shift(v))[i] {
      MaskIs(i);
      ShiftBit(v, MASKS[i]);
      hide Set, Shift, OneBit;
      NoBit(v);
    }
  }

  lemma NoBit(v: bv16)
    ensures !Set(v, 0)
  {
  }

  lemma {:induction false} ShiftsAreSteps(v: bv16, n: nat)
    ensures Steps(Register(v), n) == Register(Shifts(v, n))
    decreases n
  {
    hide Register, Step, Shift;
    if n > 0 {
      ShiftIsStep(v);
      ShiftsAreSteps(Shift(v), n - 1);
    }
  }

  lemma InjectBit(v: bv16, b: bv16, i: nat)
    requires b & 0x00FF == 0 && i < 16
    ensures Inject(Register(v), HighByte(b))[i] == Register(v ^ b)[i]
  {
    hide Set, OneBit;
    MaskIs(i);
    XorBit(v, b, MASKS[i]);
    if i >= 8 {
      LowBit(b, MASKS[i]);
    }
  }

  lemma InjectIs(v: bv16, b: bv16)
    requires b & 0x00FF == 0
    ensures Inject(Register(v), HighByte(b)) == Register(v ^ b)
  {
    hide Register, HighByte, Inject;
    forall i | 0 <= i < 16 ensures Inject(Register(v), HighByte(b))[i] == Register(v ^ b)[i] {
      InjectBit(v, b, i);
    }
  }

  lemma AddByteIs(v: bv16, c: char, b: bv16, next: bv16)
    requires ByteBits(c) == HighByte(b) && b & 0x00FF == 0 && next == Shifts(v ^ b, 8)
    ensures AddByte(Register(v), c) == Register(next)
  {
    hide Register, HighByte, ByteBits, Shifts;
    ShiftsAreSteps(v ^ b, 8);
    InjectIs(v, b);
  }

  lemma {:induction false} CrcPush(w: Word, data: string, c: char)
    ensures CrcFrom(w, data + [c]) == AddByte(CrcFrom(w, data), c)
    decreases |data|
  {
    hide AddByte;
    if data == [] {
      assert data + [c] == [c] && [c][1..] == [];
      assert CrcFrom(w, [c]) == CrcFrom(AddByte(w, c), []);
    } else {
      assert (data + [c])[1..] == data[1..] + [c];
      CrcPush(AddByte(w, data[0]), data[1..], c);
    }
  }

  /** One more byte: `before` and `after` are the registers, `b` the byte in the high half. */
  lemma Next(w: Word, data: string, c: char, before: bv16, b: bv16, after: bv16)
    requires CrcFrom(w, data) == Register(before)
    requires ByteBits(c) == HighByte(b) && b & 0x00FF == 0 && after == Shifts(before ^ b, 8)
    ensures CrcFrom(w, data + [c]) == Register(after)
  {
    hide Register, HighByte, ByteBits, Shifts, AddByte, CrcFrom;
    AddByteIs(before, c, b, after);
    CrcPush(w, data, c);
  }

  lemma {:induction false} CrcSplits(w: Word, a: string, b: string)
    ensures CrcFrom(w, a + b) == CrcFrom(CrcFrom(w, a), b)
    decreases |b|
  {
    hide AddByte, CrcFrom;
    if b == [] {
      assert a + b == a;
      Nothing(CrcFrom(w, a));
    } else {
      var n := |b| - 1;
      assert a + b == a + b[..n] + [b[n]] && b == b[..n] + [b[n]];
      CrcSplits(w, a, b[..n]);
      CrcPush(w, a + b[..n], b[n]);
      CrcPush(CrcFrom(w, a), b[..n], b[n]);
    }
  }

  lemma Nothing(w: Word)
    ensures CrcFrom(w, "") == w
  {
  }

  lemma MaskAll()
    ensures Register(0xFFFF) == PRESET
  {
  }

  lemma First3()
    ensures CrcFrom(Register(0xFFFF), "123") == Register(0x5BCE)
  {
    hide CrcFrom, Register;
    Nothing(Register(0xFFFF));
    Next(Register(0xFFFF), "", '1', 0xFFFF, 0x3100, 0xC782);
    assert "" + ['1'] == "1";
    Next(Register(0xFFFF), "1", '2', 0xC782, 0x3200, 0x3DBA);
    assert "1" + ['2'] == "12";
    Next(Register(0xFFFF), "12", '3', 0x3DBA, 0x3300, 0x5BCE);
    assert "12" + ['3'] == "123";
  }

  lemma Middle3()
    ensures CrcFrom(Register(0x5BCE), "456") == Register(0x2EF4)
  {
    hide CrcFrom, Register;
    Nothing(Register(0x5BCE));
    Next(Register(0x5BCE), "", '4', 0x5BCE, 0x3400, 0x5349);
    assert "" + ['4'] == "4";
    Next(Register(0x5BCE), "4", '5', 0x5349, 0x3500, 0x4560);
    assert "4" + ['5'] == "45";
    Next(Register(0x5BCE), "45", '6', 0x4560, 0x3600, 0x2EF4);
    assert "45" + ['6'] == "456";
  }

  lemma Last3()
    ensures CrcFrom(Register(0x2EF4), "789") == Register(0x29B1)
  {
    hide CrcFrom, Register;
    Nothing(Register(0x2EF4));
    Next(Register(0x2EF4), "", '7', 0x2EF4, 0x3700, 0x7718);
    assert "" + ['7'] == "7";
    Next(Register(0x2EF4), "7", '8', 0x7718, 0x3800, 0xA12B);
    assert "7" + ['8'] == "78";
    Next(Register(0x2EF4), "78", '9', 0xA12B, 0x3900, 0x29B1);
    assert "78" + ['9'] == "789";
  }

  /** The value every description of this register gives for the nine digits. */
  lemma CheckOfDigits()
    ensures Hex4(Crc16("123456789")) == "29B1"
  {
    hide CrcFrom, Register, Hex4;
    MaskAll();
    First3();
    Middle3();
    Last3();
    CrcSplits(PRESET, "123", "456");
    assert "123" + "456" == "123456";
    CrcSplits(PRESET, "123456", "789");
    assert "123456" + "789" == "123456789";
    NibblesOfDigits();
  }

  lemma NibblesOfDigits()
    ensures Hex4(Register(0x29B1)) == "29B1"
  {
  }

  // ---- a whole frame ----

  lemma Ping1()
    ensures CrcFrom(Register(0xFFFF), "KP1") == Register(0x090D)
  {
    hide CrcFrom, Register;
    Nothing(Register(0xFFFF));
    Next(Register(0xFFFF), "", 'K', 0xFFFF, 0x4B00, 0x185F);
    assert "" + ['K'] == "K";
    Next(Register(0xFFFF), "K", 'P', 0x185F, 0x5000, 0x96CC);
    assert "K" + ['P'] == "KP";
    Next(Register(0xFFFF), "KP", '1', 0x96CC, 0x3100, 0x090D);
    assert "KP" + ['1'] == "KP1";
  }

  lemma Ping2()
    ensures CrcFrom(Register(0x090D), "|Q|") == Register(0xC731)
  {
    hide CrcFrom, Register;
    Nothing(Register(0x090D));
    Next(Register(0x090D), "", '|', 0x090D, 0x7C00, 0x2332);
    assert "" + ['|'] == "|";
    Next(Register(0x090D), "|", 'Q', 0x2332, 0x5100, 0x6CD5);
    assert "|" + ['Q'] == "|Q";
    Next(Register(0x090D), "|Q", '|', 0x6CD5, 0x7C00, 0xC731);
    assert "|Q" + ['|'] == "|Q|";
  }

  lemma Ping3()
    ensures CrcFrom(Register(0xC731), "12A") == Register(0x5C44)
  {
    hide CrcFrom, Register;
    Nothing(Register(0xC731));
    Next(Register(0xC731), "", '1', 0xC731, 0x3100, 0xBED9);
    assert "" + ['1'] == "1";
    Next(Register(0xC731), "1", '2', 0xBED9, 0x3200, 0x8904);
    assert "1" + ['2'] == "12";
    Next(Register(0xC731), "12", 'A', 0x8904, 0x4100, 0x5C44);
    assert "12" + ['A'] == "12A";
  }

  lemma Ping4()
    ensures CrcFrom(Register(0x5C44), "B34") == Register(0xBF7B)
  {
    hide CrcFrom, Register;
    Nothing(Register(0x5C44));
    Next(Register(0x5C44), "", 'B', 0x5C44, 0x4200, 0xB7FF);
    assert "" + ['B'] == "B";
    Next(Register(0x5C44), "B", '3', 0xB7FF, 0x3300, 0x2E0C);
    assert "B" + ['3'] == "B3";
    Next(Register(0x5C44), "B3", '4', 0x2E0C, 0x3400, 0xBF7B);
    assert "B3" + ['4'] == "B34";
  }

  lemma Ping5()
    ensures CrcFrom(Register(0xBF7B), "CD|") == Register(0x3C83)
  {
    hide CrcFrom, Register;
    Nothing(Register(0xBF7B));
    Next(Register(0xBF7B), "", 'C', 0xBF7B, 0x4300, 0x5593);
    assert "" + ['C'] == "C";
    Next(Register(0xBF7B), "C", 'D', 0x5593, 0x4400, 0x9110);
    assert "C" + ['D'] == "CD";
    Next(Register(0xBF7B), "CD", '|', 0x9110, 0x7C00, 0x3C83);
    assert "CD" + ['|'] == "CD|";
  }

  lemma Ping6()
    ensures CrcFrom(Register(0x3C83), "PIN") == Register(0xBE9F)
  {
    hide CrcFrom, Register;
    Nothing(Register(0x3C83));
    Next(Register(0x3C83), "", 'P', 0x3C83, 0x5000, 0x2E2A);
    assert "" + ['P'] == "P";
    Next(Register(0x3C83), "P", 'I', 0x2E2A, 0x4900, 0x3641);
    assert "P" + ['I'] == "PI";
    Next(Register(0x3C83), "PI", 'N', 0x3641, 0x4E00, 0xBE9F);
    assert "PI" + ['N'] == "PIN";
  }

  lemma Ping7()
    ensures CrcFrom(Register(0xBE9F), "G|n") == Register(0xB54A)
  {
    hide CrcFrom, Register;
    Nothing(Register(0xBE9F));
    Next(Register(0xBE9F), "", 'G', 0xBE9F, 0x4700, 0xE136);
    assert "" + ['G'] == "G";
    Next(Register(0xBE9F), "G", '|', 0xE136, 0x7C00, 0x6414);
    assert "G" + ['|'] == "G|";
    Next(Register(0xBE9F), "G|", 'n', 0x6414, 0x6E00, 0xB54A);
    assert "G|" + ['n'] == "G|n";
  }

  lemma Ping8()
    ensures CrcFrom(Register(0xB54A), "onc") == Register(0x34B2)
  {
    hide CrcFrom, Register;
    Nothing(Register(0xB54A));
    Next(Register(0xB54A), "", 'o', 0xB54A, 0x6F00, 0x2037);
    assert "" + ['o'] == "o";
    Next(Register(0xB54A), "o", 'n', 0x2037, 0x6E00, 0x9E0A);
    assert "o" + ['n'] == "on";
    Next(Register(0xB54A), "on", 'c', 0x9E0A, 0x6300, 0x34B2);
    assert "on" + ['c'] == "onc";
  }

  lemma Ping9()
    ensures CrcFrom(Register(0x34B2), "e=4") == Register(0x148F)
  {
    hide CrcFrom, Register;
    Nothing(Register(0x34B2));
    Next(Register(0x34B2), "", 'e', 0x34B2, 0x6500, 0xF8D4);
    assert "" + ['e'] == "e";
    Next(Register(0x34B2), "e", '=', 0xF8D4, 0x3D00, 0x5DE9);
    assert "e" + ['='] == "e=";
    Next(Register(0x34B2), "e=", '4', 0x5DE9, 0x3400, 0x148F);
    assert "e=" + ['4'] == "e=4";
  }

  lemma Ping10()
    ensures CrcFrom(Register(0x148F), "2") == Register(0xCBA4)
  {
    hide CrcFrom, Register;
    Nothing(Register(0x148F));
    Next(Register(0x148F), "", '2', 0x148F, 0x3200, 0xCBA4);
    assert "" + ['2'] == "2";
  }

  lemma PingCheck()
    ensures Crc16("KP1|Q|12AB34CD|PING|nonce=42") == Register(0xCBA4)
  {
    hide CrcFrom, Register;
    MaskAll();
    Ping1();
    Ping2();
    Ping3();
    Ping4();
    Ping5();
    Ping6();
    Ping7();
    Ping8();
    Ping9();
    Ping10();
    CrcSplits(PRESET, "KP1", "|Q|");
    assert "KP1" + "|Q|" == "KP1|Q|";
    CrcSplits(PRESET, "KP1|Q|", "12A");
    assert "KP1|Q|" + "12A" == "KP1|Q|12A";
    CrcSplits(PRESET, "KP1|Q|12A", "B34");
    assert "KP1|Q|12A" + "B34" == "KP1|Q|12AB34";
    CrcSplits(PRESET, "KP1|Q|12AB34", "CD|");
    assert "KP1|Q|12AB34" + "CD|" == "KP1|Q|12AB34CD|";
    CrcSplits(PRESET, "KP1|Q|12AB34CD|", "PIN");
    assert "KP1|Q|12AB34CD|" + "PIN" == "KP1|Q|12AB34CD|PIN";
    CrcSplits(PRESET, "KP1|Q|12AB34CD|PIN", "G|n");
    assert "KP1|Q|12AB34CD|PIN" + "G|n" == "KP1|Q|12AB34CD|PING|n";
    CrcSplits(PRESET, "KP1|Q|12AB34CD|PING|n", "onc");
    assert "KP1|Q|12AB34CD|PING|n" + "onc" == "KP1|Q|12AB34CD|PING|nonc";
    CrcSplits(PRESET, "KP1|Q|12AB34CD|PING|nonc", "e=4");
    assert "KP1|Q|12AB34CD|PING|nonc" + "e=4" == "KP1|Q|12AB34CD|PING|nonce=4";
    CrcSplits(PRESET, "KP1|Q|12AB34CD|PING|nonce=4", "2");
    assert "KP1|Q|12AB34CD|PING|nonce=4" + "2" == "KP1|Q|12AB34CD|PING|nonce=42";
  }

  const PING: Frame := Frame("Q", "12AB34CD", "PING", [("nonce", "42")])

  lemma PingPayload()
    ensures Payload(PING) == "KP1|Q|12AB34CD|PING|nonce=42"
  {
    assert FieldTokens([]) == [];
    assert PING.fields[1..] == [];
    assert FieldToken(("nonce", "42")) == "nonce=42";
    assert FieldTokens(PING.fields) == ["nonce=42"];
    var tokens := ["KP1", "Q", "12AB34CD", "PING", "nonce=42"];
    assert Tokens(PING) == tokens;
    assert tokens[1..] == ["Q", "12AB34CD", "PING", "nonce=42"];
    assert tokens[1..][1..] == ["12AB34CD", "PING", "nonce=42"];
    assert tokens[1..][1..][1..] == ["PING", "nonce=42"];
    assert tokens[1..][1..][1..][1..] == ["nonce=42"];
  }

  lemma PingValid()
    ensures ValidHeader(PING) && ValidFields(PING.fields)
  {
  }

  /** One frame of the protocol's test vectors, both ways. */
  lemma PingVector()
    ensures Encode(PING) == Ok("KP1|Q|12AB34CD|PING|nonce=42*CBA4\n")
    ensures Decode("KP1|Q|12AB34CD|PING|nonce=42*CBA4\n") == Ok(PING)
  {
    hide Crc16, ValidHeader, ValidFields, Payload, Hex4, Register;
    PingCheck();
    PingPayload();
    PingValid();
    PingNibbles();
    assert Checked(Payload(PING)) == "KP1|Q|12AB34CD|PING|nonce=42*CBA4\n";
    hide Decode, Checked;
    DecodeEncode(PING);
  }

  lemma PingNibbles()
    ensures Hex4(Register(0xCBA4)) == "CBA4"
  {
  }
}
