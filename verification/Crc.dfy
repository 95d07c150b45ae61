/** The frame check sequence: a 16-bit register with the generator
    x^16 + x^12 + x^5 + 1 of section 2.2.7 of ITU-T Recommendation X.25, preset
    to all ones, most significant bit first, no final complement. */
module Crc {

  /** A 16-bit word, most significant bit first. */
  type Word = w: seq<bool> | |w| == 16 
    witness [false, false, false, false, false, false, false, false, false, false, false, false, false, false, false, false]

  const PRESET: Word := [true, true, true, true, true, true, true, true, true, true, true, true, true, true, true, true]

  /** The set bits of 0x1021, counted from the most significant end. */
  predicate Tap(i: int) {
    i == 3 || i == 10 || i == 15
  }

  /** Shift left by one; when a one falls out, exclusive-or with 0x1021. */
  function Step(w: Word): Word {
    seq(16, i requires 0 <= i < 16 => (if i < 15 then w[i + 1] else false) != (w[0] && Tap(i)))
  }

  function Steps(w: Word, n: nat): Word
    decreases n
  {
    if n == 0 then w else Steps(Step(w), n - 1)
  }

  /** Exclusive-or of bits into the high end of the register. */
  function Inject(w: Word, bits: seq<bool>): Word
    requires |bits| <= 16
  {
    seq(16, i requires 0 <= i < 16 => w[i] != (i < |bits| && bits[i]))
  }

  predicate Bit(n: int, weight: nat)
    requires weight > 0
  {
    n / weight % 2 == 1
  }

  /** The eight bits of a byte, most significant first. */
  function ByteBits(c: char): (bits: seq<bool>)
    ensures |bits| == 8
  {
    var n := c as int;
    [Bit(n, 128), Bit(n, 64), Bit(n, 32), Bit(n, 16), Bit(n, 8), Bit(n, 4), Bit(n, 2), Bit(n, 1)]
  }

  function AddByte(w: Word, c: char): Word {
    Steps(Inject(w, ByteBits(c)), 8)
  }

  function CrcFrom(w: Word, data: string): Word
    decreases |data|
  {
    if data == [] then w else CrcFrom(AddByte(w, data[0]), data[1..])
  }

  function Crc16(data: string): Word {
    CrcFrom(PRESET, data)
  }

  /** The loops as both sides run them. */
  method ComputeCrc(data: string) returns (crc: Word)
    ensures crc == Crc16(data)
  {
    crc := PRESET;
    for index := 0 to |data|
      invariant CrcFrom(crc, data[index..]) == Crc16(data)
    {
      crc := ShiftIn(crc, data[index]);
      assert data[index..][1..] == data[index + 1..];
    }
    assert data[|data|..] == [];
  }

  method ShiftIn(before: Word, c: char) returns (crc: Word)
    ensures crc == AddByte(before, c)
  {
    hide Step, Inject, ByteBits;
    crc := Inject(before, ByteBits(c));
    for bit := 0 to 8
      invariant Steps(crc, 8 - bit) == AddByte(before, c)
    {
      crc := Step(crc);
    }
  }

  // ---- the register bit by bit ----

  function Feed(w: Word, bit: bool): Word {
    Step(Inject(w, [bit]))
  }

  function FeedAll(w: Word, bits: seq<bool>): Word
    decreases |bits|
  {
    if bits == [] then w else FeedAll(Feed(w, bits[0]), bits[1..])
  }

  function Bits(data: string): (bits: seq<bool>)
    ensures |bits| == 8 * |data|
  {
    if data == [] then [] else ByteBits(data[0]) + Bits(data[1..])
  }

  lemma StepInjective(v: Word, w: Word)
    requires Step(v) == Step(w)
    ensures v == w
  {
    assert v[0] == Step(v)[15] == Step(w)[15] == w[0];
    forall i | 0 <= i < 16 ensures v[i] == w[i] {
      if i > 0 {
        assert Step(v)[i - 1] == Step(w)[i - 1];
      }
    }
  }

  lemma {:induction false} StepsInjective(v: Word, w: Word, n: nat)
    requires Steps(v, n) == Steps(w, n)
    ensures v == w
    decreases n
  {
    if n > 0 {
      StepsInjective(Step(v), Step(w), n - 1);
      StepInjective(v, w);
    }
  }

  lemma InjectShifts(w: Word, bits: seq<bool>)
    requires 0 < |bits| <= 16
    ensures Step(Inject(w, bits)) == Inject(Feed(w, bits[0]), bits[1..])
  {
    var (l, r) := (Step(Inject(w, bits)), Inject(Feed(w, bits[0]), bits[1..]));
    forall i | 0 <= i < 16 ensures l[i] == r[i] {
      assert Inject(w, bits)[0] == Inject(w, [bits[0]])[0];
      if i < 15 {
        assert Inject(w, bits)[i + 1] == (w[i + 1] != (i + 1 < |bits| && bits[i + 1]));
        assert Inject(w, [bits[0]])[i + 1] == w[i + 1];
      }
    }
  }

  /** Up to sixteen bits may be injected at once instead of one before each step. */
  lemma {:induction false} FeedIsInject(w: Word, bits: seq<bool>)
    requires |bits| <= 16
    ensures FeedAll(w, bits) == Steps(Inject(w, bits), |bits|)
    decreases |bits|
  {
    if bits == [] {
      assert Inject(w, bits) == w;
    } else {
      InjectShifts(w, bits);
      FeedIsInject(Feed(w, bits[0]), bits[1..]);
    }
  }

  lemma {:induction false} FeedAllSplits(w: Word, xs: seq<bool>, ys: seq<bool>)
    ensures FeedAll(w, xs + ys) == FeedAll(FeedAll(w, xs), ys)
    decreases |xs|
  {
    if xs == [] {
      assert xs + ys == ys;
    } else {
      assert (xs + ys)[1..] == xs[1..] + ys;
      FeedAllSplits(Feed(w, xs[0]), xs[1..], ys);
    }
  }

  lemma {:induction false} CrcIsBitwise(w: Word, data: string)
    ensures CrcFrom(w, data) == FeedAll(w, Bits(data))
    decreases |data|
  {
    if data != [] {
      FeedIsInject(w, ByteBits(data[0]));
      FeedAllSplits(w, ByteBits(data[0]), Bits(data[1..]));
      CrcIsBitwise(AddByte(w, data[0]), data[1..]);
    }
  }

  lemma {:induction false} FeedAllInjective(v: Word, w: Word, bits: seq<bool>)
    requires FeedAll(v, bits) == FeedAll(w, bits)
    ensures v == w
    decreases |bits|
  {
    if bits != [] {
      FeedAllInjective(Feed(v, bits[0]), Feed(w, bits[0]), bits[1..]);
      StepInjective(Inject(v, [bits[0]]), Inject(w, [bits[0]]));
      assert forall i :: 0 <= i < 16 ==> v[i] == (Inject(v, [bits[0]])[i] != (i == 0 && bits[0]));
      assert forall i :: 0 <= i < 16 ==> w[i] == (Inject(w, [bits[0]])[i] != (i == 0 && bits[0]));
    }
  }

  lemma ShortWindowDiffers(w: Word, xs: seq<bool>, ys: seq<bool>)
    requires |xs| == |ys| <= 16 && xs != ys
    ensures FeedAll(w, xs) != FeedAll(w, ys)
  {
    FeedIsInject(w, xs);
    FeedIsInject(w, ys);
    if FeedAll(w, xs) == FeedAll(w, ys) {
      StepsInjective(Inject(w, xs), Inject(w, ys), |xs|);
      forall i | 0 <= i < |xs| ensures xs[i] == ys[i] {
        assert Inject(w, xs)[i] == Inject(w, ys)[i];
      }
    }
  }

  /** Every burst of at most sixteen bits is detected: messages that differ, and
      only inside a window of sixteen consecutive bits, have different checks. */
  lemma BurstDetected(before: seq<bool>, xs: seq<bool>, ys: seq<bool>, rest: seq<bool>)
    requires |xs| == |ys| <= 16 && xs != ys
    ensures FeedAll(PRESET, before + xs + rest) != FeedAll(PRESET, before + ys + rest)
  {
    FeedAllSplits(PRESET, before + xs, rest);
    FeedAllSplits(PRESET, before, xs);
    FeedAllSplits(PRESET, before + ys, rest);
    FeedAllSplits(PRESET, before, ys);
    var w := FeedAll(PRESET, before);
    ShortWindowDiffers(w, xs, ys);
    if FeedAll(FeedAll(w, xs), rest) == FeedAll(FeedAll(w, ys), rest) {
      FeedAllInjective(FeedAll(w, xs), FeedAll(w, ys), rest);
    }
  }

  /** A string of bytes. */
  predicate Octets(s: string) {
    forall i :: 0 <= i < |s| ==> s[i] as int < 256
  }

  function Weigh(n: int, weight: nat): nat
    requires weight > 0
  {
    if Bit(n, weight) then weight else 0
  }

  lemma Digits(n: nat)
    requires n < 256
    ensures n == 128 * (n / 128 % 2) + 64 * (n / 64 % 2) + 32 * (n / 32 % 2) + 16 * (n / 16 % 2)
                 + 8 * (n / 8 % 2) + 4 * (n / 4 % 2) + 2 * (n / 2 % 2) + n / 1 % 2
  {
    assert n / 2 / 2 == n / 4 && n / 4 / 2 == n / 8 && n / 8 / 2 == n / 16 && n / 16 / 2 == n / 32;
    assert n / 32 / 2 == n / 64 && n / 64 / 2 == n / 128 && n / 128 < 2;
  }

  lemma WeighDigit(n: nat, weight: nat)
    requires weight > 0
    ensures Weigh(n, weight) == weight * (n / weight % 2)
  {
    if !Bit(n, weight) {
      assert n / weight % 2 == 0;
    }
  }

  lemma Halves(n: nat)
    requires n < 256
    ensures n == Weigh(n, 128) + Weigh(n, 64) + Weigh(n, 32) + Weigh(n, 16)
                 + Weigh(n, 8) + Weigh(n, 4) + Weigh(n, 2) + Weigh(n, 1)
  {
    hide Weigh;
    Digits(n);
    WeighDigit(n, 128);
    WeighDigit(n, 64);
    WeighDigit(n, 32);
    WeighDigit(n, 16);
    WeighDigit(n, 8);
    WeighDigit(n, 4);
    WeighDigit(n, 2);
    WeighDigit(n, 1);
  }

  lemma ByteBitsInjective(c: char, d: char)
    requires c as int < 256 && d as int < 256 && ByteBits(c) == ByteBits(d)
    ensures c == d
  {
    hide Bit;
    var (b, e) := (ByteBits(c), ByteBits(d));
    Halves(c as int);
    Halves(d as int);
    assert b[0] == e[0] && b[1] == e[1] && b[2] == e[2] && b[3] == e[3];
    assert b[4] == e[4] && b[5] == e[5] && b[6] == e[6] && b[7] == e[7];
  }

  lemma {:induction false} BitsSplit(a: string, b: string)
    ensures Bits(a + b) == Bits(a) + Bits(b)
    decreases |a|
  {
    if a == [] {
      assert a + b == b;
    } else {
      assert (a + b)[1..] == a[1..] + b;
      BitsSplit(a[1..], b);
    }
  }

  lemma {:induction false} BitsInjective(a: string, b: string)
    requires Octets(a) && Octets(b) && |a| == |b| && Bits(a) == Bits(b)
    ensures a == b
    decreases |a|
  {
    if a != [] {
      assert ByteBits(a[0]) == Bits(a)[..8] == Bits(b)[..8] == ByteBits(b[0]);
      assert Bits(a[1..]) == Bits(a)[8..] == Bits(b)[8..] == Bits(b[1..]);
      ByteBitsInjective(a[0], b[0]);
      BitsInjective(a[1..], b[1..]);
    }
  }

  /** In bytes: equal-length payloads that differ only within two adjacent bytes
      never share a check value. */
  lemma TwoByteBurstDetected(before: string, x: string, y: string, rest: string)
    requires |x| == |y| <= 2 && x != y && Octets(x) && Octets(y)
    ensures Crc16(before + x + rest) != Crc16(before + y + rest)
  {
    CrcIsBitwise(PRESET, before + x + rest);
    CrcIsBitwise(PRESET, before + y + rest);
    BitsSplit(before + x, rest);
    BitsSplit(before, x);
    BitsSplit(before + y, rest);
    BitsSplit(before, y);
    if Bits(x) == Bits(y) {
      BitsInjective(x, y);
    }
    BurstDetected(Bits(before), Bits(x), Bits(y), Bits(rest));
  }

  // ---- odd numbers of flipped bits ----

  function Parity(bits: seq<bool>): bool {
    if bits == [] then false else bits[0] != Parity(bits[1..])
  }

  lemma {:induction false} FlipParity(bits: seq<bool>, i: nat)
    requires i < |bits|
    ensures Parity(bits[i := !bits[i]]) != Parity(bits)
    decreases i
  {
    if i > 0 {
      FlipParity(bits[1..], i - 1);
      assert bits[i := !bits[i]][1..] == bits[1..][i - 1 := !bits[i]];
    } else {
      assert bits[i := !bits[i]][1..] == bits[1..];
    }
  }

  lemma {:induction false} ParitySplit(a: seq<bool>, b: seq<bool>)
    ensures Parity(a + b) == (Parity(a) != Parity(b))
    decreases |a|
  {
    if a == [] {
      assert a + b == b;
    } else {
      ParitySplit(a[1..], b);
      assert (a + b)[1..] == a[1..] + b;
    }
  }

  /** The generator has an even number of terms, so a step keeps the parity. */
  lemma StepKeepsParity(w: Word)
    ensures Parity(Step(w)) == Parity(w)
  {
    var s := w[1..] + [false];
    ParitySplit(w[1..], [false]);
    assert Parity([false]) == false;
    if w[0] {
      var s1 := s[3 := !s[3]];
      var s2 := s1[10 := !s1[10]];
      FlipParity(s, 3);
      FlipParity(s1, 10);
      FlipParity(s2, 15);
      assert Step(w) == s2[15 := !s2[15]];
    } else {
      assert Step(w) == s;
    }
  }

  lemma {:induction false} FeedAllParity(w: Word, bits: seq<bool>)
    ensures Parity(FeedAll(w, bits)) == (Parity(w) != Parity(bits))
    decreases |bits|
  {
    if bits != [] {
      FeedAllParity(Feed(w, bits[0]), bits[1..]);
      StepKeepsParity(Inject(w, [bits[0]]));
      if bits[0] {
        FlipParity(w, 0);
        assert Inject(w, [bits[0]]) == w[0 := !w[0]];
      } else {
        assert Inject(w, [bits[0]]) == w;
      }
    }
  }

  /** Any odd number of flipped bits, anywhere, is detected. */
  lemma OddFlipsDetected(x: string, y: string)
    requires Parity(Bits(x)) != Parity(Bits(y))
    ensures Crc16(x) != Crc16(y)
  {
    CrcIsBitwise(PRESET, x);
    CrcIsBitwise(PRESET, y);
    FeedAllParity(PRESET, Bits(x));
    FeedAllParity(PRESET, Bits(y));
  }

  /** Two payloads with an odd number of differing bits have different parities. */
  function Differences(a: seq<bool>, b: seq<bool>): nat
    requires |a| == |b|
  {
    if a == [] then 0 else (if a[0] != b[0] then 1 else 0) + Differences(a[1..], b[1..])
  }

  lemma {:induction false} DifferencesParity(a: seq<bool>, b: seq<bool>)
    requires |a| == |b|
    ensures Differences(a, b) % 2 == 1 <==> Parity(a) != Parity(b)
    decreases |a|
  {
    if a != [] {
      DifferencesParity(a[1..], b[1..]);
    }
  }

  /** ...so a payload reaching the other side with an odd number of bits flipped
      fails its check. */
  lemma OddErrorDetected(sent: string, received: string)
    requires |sent| == |received| && Differences(Bits(sent), Bits(received)) % 2 == 1
    ensures Crc16(sent) != Crc16(received)
  {
    DifferencesParity(Bits(sent), Bits(received));
    OddFlipsDetected(sent, received);
  }
}
