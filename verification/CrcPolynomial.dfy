/** The frame check sequence as arithmetic on polynomials over GF(2), without the
    register that computes it. */
module CrcPolynomial {
  import opened Crc

  /** A polynomial over GF(2), as the set of the exponents of its terms. */
  type Poly = iset<int>

  ghost function Plus(p: Poly, q: Poly): Poly {
    iset k: int | (k in p) != (k in q)
  }

  /** Times x^n. */
  ghost function TimesX(p: Poly, n: nat): Poly {
    iset k: int | Raised(p, n, k)
  }

  ghost predicate Raised(p: Poly, n: nat, k: int) {
    k - n in p
  }

  /** The product with the polynomial whose coefficient of x^i is q[i]. */
  ghost function Product(q: seq<bool>, g: Poly): Poly {
    if q == [] then iset{}
    else
      var n := |q| - 1;
      Plus(if q[n] then TimesX(g, n) else iset{}, Product(q[..n], g))
  }

  ghost predicate Below(p: Poly, degree: int) {
    forall k :: k in p ==> 0 <= k < degree
  }

  /** x^16 + x^12 + x^5 + 1. */
  ghost const GENERATOR: Poly := iset{16, 12, 5, 0}

  /** Sixteen terms, x^15 down to 1. */
  ghost const ONES: Poly := iset k: int | 0 <= k < 16

  function Power2(n: nat): nat
    ensures Power2(n) > 0
  {
    if n == 0 then 1 else 2 * Power2(n - 1)
  }

  /** A message of bytes, the first bit of the first byte its leading coefficient. */
  ghost function Message(data: string): Poly {
    iset k: int | 0 <= k < 8 * |data| && data[|data| - 1 - k / 8] as int / Power2(k % 8) % 2 == 1
  }

  /** The last bit is the constant term. */
  predicate HasTerm(bits: seq<bool>, k: int) {
    0 <= k < |bits| && bits[|bits| - 1 - k]
  }

  ghost function Terms(bits: seq<bool>): Poly {
    iset k: int | HasTerm(bits, k)
  }

  /** What is divided: the message times x^16, with sixteen ones added to its front. */
  ghost function Dividend(data: string): Poly {
    Plus(TimesX(Message(data), 16), TimesX(ONES, 8 * |data|))
  }

  // ---- a bit at a time ----

  lemma FeedPoly(w: Word, b: bool)
    ensures Terms(Feed(w, b)) ==
              Plus(TimesX(Terms(w), 1), Plus(if b then iset{16} else iset{}, if w[0] != b then GENERATOR else iset{}))
  {
    var (l, r) := (Terms(Feed(w, b)),
                   Plus(TimesX(Terms(w), 1), Plus(if b then iset{16} else iset{}, if w[0] != b then GENERATOR else iset{})));
    var v := Inject(w, [b]);
    assert v[0] == (w[0] != b) && forall i :: 0 < i < 16 ==> v[i] == w[i];
    forall k: int ensures k in l <==> k in r {
      if 0 <= k < 16 {
        assert Step(v)[15 - k] == ((if 15 - k < 15 then v[16 - k] else false) != (v[0] && Tap(15 - k)));
      }
    }
  }

  lemma {:induction false} FeedAllPoly(w: Word, bits: seq<bool>) returns (q: seq<bool>)
    ensures |q| == |bits|
    ensures Plus(Plus(TimesX(Terms(w), |bits|), TimesX(Terms(bits), 16)), Terms(FeedAll(w, bits))) == Product(q, GENERATOR)
    decreases |bits|
  {
    hide Terms, Feed;
    if bits == [] {
      q := [];
      NoTerms(bits);
      NothingFed(Terms(w));
    } else {
      var (b, rest, n) := (bits[0], bits[1..], |bits| - 1);
      var p := FeedAllPoly(Feed(w, b), rest);
      FeedPoly(w, b);
      q := p + [w[0] != b];
      assert q[..n] == p;
      FirstBit(bits);
      RegroupTerms(Terms(w), b, w[0] != b, n, Terms(rest), Terms(FeedAll(w, bits)), Product(p, GENERATOR));
    }
  }

  lemma NoTerms(bits: seq<bool>)
    requires bits == []
    ensures Terms(bits) == iset{}
  {
  }

  lemma NothingFed(w: Poly)
    ensures Plus(Plus(TimesX(w, 0), TimesX(iset{}, 16)), w) == iset{}
  {
  }

  lemma FirstBit(bits: seq<bool>)
    requires bits != []
    ensures Terms(bits) == Plus(if bits[0] then iset{|bits| - 1} else iset{}, Terms(bits[1..]))
  {
  }

  lemma RegroupTerms(w: Poly, b: bool, c: bool, n: nat, rest: Poly, last: Poly, p: Poly)
    requires Plus(Plus(TimesX(Plus(TimesX(w, 1), Plus(if b then iset{16} else iset{}, if c then GENERATOR else iset{})), n),
                       TimesX(rest, 16)), last) == p
    ensures Plus(Plus(TimesX(w, n + 1), TimesX(Plus(if b then iset{n} else iset{}, rest), 16)), last)
            == Plus(if c then TimesX(GENERATOR, n) else iset{}, p)
  {
    hide GENERATOR;
    var l := Plus(Plus(TimesX(w, n + 1), TimesX(Plus(if b then iset{n} else iset{}, rest), 16)), last);
    forall k: int ensures k in l <==> k in Plus(if c then TimesX(GENERATOR, n) else iset{}, p) {
      assert k in p <==> ((((k - n - 1 in w) != ((b && k - n == 16) != (c && k - n in GENERATOR))) != (k - 16 in rest)) != (k in last));
    }
  }

  lemma ByteBit(c: char, i: nat)
    requires i < 8
    ensures ByteBits(c)[i] == (c as int / Power2(7 - i) % 2 == 1)
  {
    PowersTo7();
    hide Power2;
  }

  lemma {:induction false} BitIs(data: string, at: nat)
    requires at < 8 * |data|
    ensures Bits(data)[at] == (data[at / 8] as int / Power2(7 - at % 8) % 2 == 1)
    decreases |data|
  {
    if at < 8 {
      ByteBit(data[0], at);
      hide ByteBits, Power2;
      assert at / 8 == 0 && at % 8 == at;
    } else {
      hide ByteBits, Power2;
      BitIs(data[1..], at - 8);
      assert at / 8 == (at - 8) / 8 + 1;
      assert data[1..][(at - 8) / 8] == data[at / 8];
    }
  }

  lemma PowersTo7()
    ensures Power2(0) == 1 && Power2(1) == 2 && Power2(2) == 4 && Power2(3) == 8
    ensures Power2(4) == 16 && Power2(5) == 32 && Power2(6) == 64 && Power2(7) == 128
  {
  }

  lemma MessageBits(data: string)
    ensures Message(data) == Terms(Bits(data))
  {
    hide Power2;
    var n := |data|;
    var bits := Bits(data);
    forall k: int ensures k in Message(data) <==> k in Terms(bits) {
      if 0 <= k < 8 * n {
        var at := 8 * n - 1 - k;
        assert at / 8 == n - 1 - k / 8 && 7 - at % 8 == k % 8;
        BitIs(data, at);
      }
    }
  }

  // ---- division ----

  lemma {:induction false} ProductBelow(q: seq<bool>)
    ensures Below(Product(q, GENERATOR), |q| + 16)
    decreases |q|
  {
    if q != [] {
      ProductBelow(q[..|q| - 1]);
    }
  }

  lemma LeadingTerm(q: seq<bool>)
    requires q != [] && q[|q| - 1]
    ensures |q| + 15 in Product(q, GENERATOR)
  {
    var n := |q| - 1;
    ProductBelow(q[..n]);
    assert n + 16 in TimesX(GENERATOR, n);
  }

  /** A multiple of the generator of degree below 16 is zero. */
  lemma {:induction false} MultipleLeads(q: seq<bool>)
    requires Below(Product(q, GENERATOR), 16)
    ensures Product(q, GENERATOR) == iset{}
    decreases |q|
  {
    if q != [] {
      var n := |q| - 1;
      if q[n] {
        LeadingTerm(q);
        assert false;
      } else {
        assert Product(q, GENERATOR) == Product(q[..n], GENERATOR);
        MultipleLeads(q[..n]);
      }
    }
  }

  /** The sum of two multiples is a multiple. */
  lemma {:induction false} SumOfMultiples(p: seq<bool>, q: seq<bool>, g: Poly) returns (r: seq<bool>)
    ensures |r| == if |p| > |q| then |p| else |q|
    ensures Plus(Product(p, g), Product(q, g)) == Product(r, g)
    decreases |p| + |q|
  {
    if p == [] {
      r := q;
    } else if |p| < |q| {
      var s := SumOfMultiples(p, q[..|q| - 1], g);
      r := s + [q[|q| - 1]];
      assert r[..|q| - 1] == s;
    } else if |p| > |q| {
      var s := SumOfMultiples(p[..|p| - 1], q, g);
      r := s + [p[|p| - 1]];
      assert r[..|p| - 1] == s;
    } else {
      var s := SumOfMultiples(p[..|p| - 1], q[..|q| - 1], g);
      r := s + [p[|p| - 1] != q[|q| - 1]];
      assert r[..|q| - 1] == s;
    }
  }

  /** The check value of any data is the remainder of the dividend on division by
      x^16 + x^12 + x^5 + 1, and nothing else of degree below 16 is. */
  lemma CheckIsRemainder(data: string, r: Poly)
    requires Below(r, 16)
    ensures (exists q :: Plus(Dividend(data), r) == Product(q, GENERATOR)) <==> r == Terms(Crc16(data))
  {
    var quotient := CheckDivides(data);
    hide Product, GENERATOR, Dividend;
    if q :| Plus(Dividend(data), r) == Product(q, GENERATOR) {
      var s := SumOfMultiples(q, quotient, GENERATOR);
      var w := Terms(Crc16(data));
      assert Plus(Plus(Dividend(data), r), Plus(Dividend(data), w)) == Plus(r, w);
      MultipleLeads(s);
      forall k: int ensures k in r <==> k in w {
        assert k !in Plus(r, w);
      }
    }
  }

  lemma CheckDivides(data: string) returns (q: seq<bool>)
    ensures Plus(Dividend(data), Terms(Crc16(data))) == Product(q, GENERATOR)
  {
    hide Product, GENERATOR, Message, Terms, ONES, CrcFrom, FeedAll, Bits, PRESET, Dividend;
    CrcIsBitwise(PRESET, data);
    MessageBits(data);
    q := FeedAllPoly(PRESET, Bits(data));
    PresetIsOnes();
    DividendIs(data);
  }

  lemma DividendIs(data: string)
    ensures Dividend(data) == Plus(TimesX(ONES, |Bits(data)|), TimesX(Message(data), 16))
  {
    hide ONES, Message;
  }

  lemma PresetIsOnes()
    ensures Terms(PRESET) == ONES
  {
  }
}
