/** The boot counter in its two EEPROM slots (main.cpp). A write may fail to
    start, or be torn by a power cut and then be recognized as invalid. */
module BootIdentity {
  import opened Common

  /** What a slot reads as: a record with valid magic and CRC, or not one. */
  datatype Slot = Invalid | Valid(counter: U32)

  datatype Eeprom = Eeprom(even: Slot, odd: Slot)

  datatype Fate = NotWritten | Torn | Written

  predicate Usable(s: Slot) {
    s.Valid? && s.counter > 0
  }

  /** The highest counter of the valid records, or zero. */
  function Previous(e: Eeprom): U32 {
    var first := if Usable(e.even) then e.even.counter else 0;
    if Usable(e.odd) && e.odd.counter > first then e.odd.counter else first
  }

  function Next(e: Eeprom): U32 {
    if Previous(e) == UINT32_MAX then UINT32_MAX else Previous(e) + 1
  }

  function Put(e: Eeprom, counter: U32, fate: Fate): Eeprom {
    if fate == NotWritten then e
    else
      var slot := if fate == Torn then Invalid else Valid(counter);
      if counter % 2 == 0 then e.(even := slot) else e.(odd := slot)
  }

  function PowerUp(e: Eeprom, fate: Fate): Eeprom {
    Put(e, Next(e), fate)
  }

  /** The counters under which power-ups reached the main loop. */
  function Reached(e: Eeprom, fates: seq<Fate>): seq<U32>
    decreases |fates|
  {
    if fates == [] then []
    else (if fates[0] == Written then [Next(e)] else []) + Reached(PowerUp(e, fates[0]), fates[1..])
  }

  const BLANK := Eeprom(Invalid, Invalid)

  /** Every record sits in the slot of its parity, and the last counter of all
      was only ever written over the one before it. */
  predicate Placed(e: Eeprom) {
    && (e.even.Valid? ==> e.even.counter % 2 == 0 && e.even.counter > 0)
    && (e.odd.Valid? ==> e.odd.counter % 2 == 1)
    && (e.odd == Valid(UINT32_MAX) ==> e.even == Valid(UINT32_MAX - 1))
  }

  /** Where the record of the last completed power-up is. */
  predicate InEven(e: Eeprom) {
    Usable(e.even) && e.even.counter == Previous(e)
  }

  /** The slot of the last completed power-up is the one written next exactly
      when the counter is exhausted; until then a torn write leaves it readable. */
  lemma LastRecordSpared(e: Eeprom, fate: Fate)
    requires Placed(e) && Previous(e) > 0
    ensures (InEven(e) <==> Next(e) % 2 == 0) <==> Previous(e) == UINT32_MAX
    ensures Placed(PowerUp(e, fate))
    ensures fate != Written && Previous(e) < UINT32_MAX ==> Previous(PowerUp(e, fate)) == Previous(e)
    ensures fate != Written ==> Previous(PowerUp(e, fate)) >= Previous(e) - 1 && Next(PowerUp(e, fate)) == Next(e)
    ensures fate == Written ==> Previous(PowerUp(e, fate)) == Next(e)
  {
  }

  lemma StepPlaced(e: Eeprom, fate: Fate)
    requires Placed(e)
    ensures Placed(PowerUp(e, fate))
    ensures Next(e) <= Next(PowerUp(e, fate))
    ensures fate == Written ==> Next(e) < Next(PowerUp(e, fate)) || Next(e) == Next(PowerUp(e, fate)) == UINT32_MAX
  {
    if Previous(e) > 0 {
      LastRecordSpared(e, fate);
    }
  }

  /** Strictly increasing, but for repetitions of the last counter of all. */
  predicate Rising(r: seq<U32>) {
    forall i, j :: 0 <= i < j < |r| ==> r[i] < r[j] || r[i] == r[j] == UINT32_MAX
  }

  predicate From(r: seq<U32>, low: U32) {
    forall i :: 0 <= i < |r| ==> low <= r[i]
  }

  lemma RisingCons(x: U32, r: seq<U32>, low: U32)
    requires Rising(r) && From(r, low) && (x < low || x == low == UINT32_MAX)
    ensures Rising([x] + r) && From([x] + r, x)
  {
  }

  lemma {:induction false} ReachedFrom(e: Eeprom, fates: seq<Fate>)
    requires Placed(e)
    ensures Rising(Reached(e, fates)) && From(Reached(e, fates), Next(e))
    decreases |fates|
  {
    if fates != [] {
      hide Next, PowerUp, Placed;
      var next := PowerUp(e, fates[0]);
      StepPlaced(e, fates[0]);
      ReachedFrom(next, fates[1..]);
      var rest := Reached(next, fates[1..]);
      if fates[0] == Written {
        RisingCons(Next(e), rest, Next(next));
      } else {
        assert [] + rest == rest;
      }
    }
  }

  /** From a blank EEPROM, under any sequence of complete, torn and missing
      writes, the boot counters that reach the main loop strictly increase until
      the last one, which then repeats for ever. */
  lemma BootsIncrease(fates: seq<Fate>)
    ensures var r := Reached(BLANK, fates);
            forall i, j :: 0 <= i < j < |r| ==> r[i] < r[j] || r[i] == r[j] == UINT32_MAX
  {
    ReachedFrom(BLANK, fates);
  }

  /** Two power-ups share a boot identity exactly when both came after the
      counter ran out. */
  lemma BootsDistinctUntilExhausted(fates: seq<Fate>, i: nat, j: nat)
    requires i < j < |Reached(BLANK, fates)|
    ensures Reached(BLANK, fates)[i] == Reached(BLANK, fates)[j] <==> Reached(BLANK, fates)[i] == UINT32_MAX
  {
    BootsIncrease(fates);
  }

  class BootStore {
    var even: Slot
    var odd: Slot
    var bootCounter: U32

    function Stored(): Eeprom
      reads this
    {
      Eeprom(even, odd)
    }

    constructor ()
      ensures Stored() == BLANK && bootCounter == 1
    {
      even, odd, bootCounter := Invalid, Invalid, 1;
    }

    /** `fate` is what becomes of the one EEPROM write. */
    method InitializeBootIdentity(fate: Fate)
      modifies this
      ensures bootCounter == Next(old(Stored()))
      ensures Stored() == PowerUp(old(Stored()), fate)
      ensures old(Placed(Stored())) ==> Placed(Stored())
      ensures old(Placed(Stored())) && old(Previous(Stored())) < UINT32_MAX ==>
                bootCounter == old(Previous(Stored())) + 1
                && Previous(Stored()) == if fate == Written then bootCounter else bootCounter - 1
    {
      if Placed(Stored()) {
        StepPlaced(Stored(), fate);
        if Previous(Stored()) > 0 {
          LastRecordSpared(Stored(), fate);
        }
      }
      var previous := 0;
      if even.Valid? && even.counter > 0 {
        previous := even.counter;
      }
      if odd.Valid? && odd.counter > 0 && odd.counter > previous {
        previous := odd.counter;
      }
      bootCounter := if previous == UINT32_MAX then UINT32_MAX else previous + 1;
      if fate == NotWritten {
        return;
      }
      var record := if fate == Torn then Invalid else Valid(bootCounter);
      if bootCounter % 2 == 0 {
        even := record;
      } else {
        odd := record;
      }
    }
  }
}
