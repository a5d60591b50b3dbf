/**
 * Trigger-effect generators: each one validates its parameters and, when
 * they are in range, builds a fresh trigger whose force parameters pack a
 * zone mask and per-zone values into bytes. Out-of-range parameters make
 * a generator return nothing; no parameter is clamped.
 *
 * For each generator a pure function (`FeedbackEffect`, `WeaponEffect`,
 * `VibrationEffect`) states the trigger it must produce, in terms of the
 * packed words and their little-endian bytes; the generator methods are
 * proved to build exactly that, and lemmas state what the bytes mean.
 */
module ForceFeedback {
  import opened Bits
  import opened Wrappers
  import opened Enums
  import opened Trigger

  /** The output-report offsets of the two trigger blocks on USB. */
  const ButtonR2 := 11
  const ButtonL2 := 22

  /** Bits 0 to 9 set: all ten trigger zones active. */
  const AllZones := 0x3FF

  // ----- packed zone fields -----

  /** The value `v` repeated in each of `n` consecutive 3-bit slots. */
  function ZoneField(v: nat, n: nat): nat
  {
    if n == 0 then 0 else v + 8 * ZoneField(v, n - 1)
  }

  /** The 3-bit slot `i` of a packed word. */
  function Slot(w: nat, i: nat): nat
  {
    (w / Pow2(3 * i)) % 8
  }

  lemma Pow2Step3(n: nat)
    ensures Pow2(3 * n + 3) == 8 * Pow2(3 * n)
  {
    Pow2Add(3 * n, 3);
    Pow2Small();
  }

  /** A field of `n` slots fits in `3n` bits. */
  lemma {:induction false} ZoneFieldBound(v: nat, n: nat)
    requires v < 8
    ensures ZoneField(v, n) < Pow2(3 * n)
    decreases n
  {
    if n > 0 {
      ZoneFieldBound(v, n - 1);
      Pow2Step3(n - 1);
    }
  }

  /** Adding a slot on top: the step the generators' loops take. */
  lemma {:induction false} ZoneFieldTop(v: nat, n: nat)
    ensures ZoneField(v, n + 1) == ZoneField(v, n) + v * Pow2(3 * n)
    decreases n
  {
    if n > 0 {
      var p := Pow2(3 * (n - 1));
      ZoneFieldTop(v, n - 1);
      Pow2Step3(n - 1);
      assert 8 * (v * p) == v * (8 * p);
    }
  }

  /** Every slot of the field holds `v`. */
  lemma {:induction false} ZoneFieldSlot(v: nat, n: nat, i: nat)
    requires v < 8 && i < n
    ensures Slot(ZoneField(v, n), i) == v
    decreases i
  {
    var z := ZoneField(v, n);
    DivModUnique(z, 8, ZoneField(v, n - 1), v);
    if i > 0 {
      ZoneFieldSlot(v, n - 1, i - 1);
      DivDiv(z, 8, Pow2(3 * (i - 1)));
      Pow2Step3(i - 1);
    }
  }

  /**
   * The loop the feedback and vibration generators share: `value` is
   * or-ed into each of the ten 3-bit slots, and each zone's bit into the
   * active mask.
   */
  method PackZones(value: nat) returns (zones: nat, active: nat)
    requires value < 8
    ensures zones == ZoneField(value, 10) && active == AllZones
  {
    zones, active := 0, 0;
    for i := 0 to 10
      invariant zones == ZoneField(value, i)
      invariant active == Pow2(i) - 1
    {
      ZoneFieldBound(value, i);
      OrDisjoint(zones, value, 3 * i);
      ZoneFieldTop(value, i);
      zones := Or(zones, Shl(value, 3 * i));
      OrDisjoint(active, 1, i);
      active := Or(active, Shl(1, i));
    }
    Pow2Values();
  }

  // ----- the generators' specifications -----

  /** The active-zone mask occupies force parameters 0 and 1. */
  lemma AllZonesBytes()
    ensures LeBytes(AllZones, 2) == [0xFF, 0x03]
  {
  }

  /** Feedback: a resistance of `strength` in every zone. */
  function FeedbackEffect(position: int, strength: int): (r: Option<TriggerEffect>)
    ensures r.Some? <==> 0 <= position <= 9 && 0 < strength <= 8
    ensures r.Some? ==> r.value.mode == ModeFfbFeedback && |r.value.forces| == 10
  {
    if !(0 <= position <= 9) then None
    else if 0 < strength <= 8 then
      Some(TriggerEffect(ModeFfbFeedback,
        LeBytes(AllZones, 2) + LeBytes(ZoneField(strength - 1, 10), 4) + Zeros(4)))
    else None
  }

  /**
   * A feedback effect marks all ten zones active, puts `strength - 1` in
   * each 3-bit slot of the 32-bit word in parameters 2 to 5, and leaves
   * parameters 6 to 9 zero.
   */
  lemma FeedbackLayout(position: int, strength: int)
    requires FeedbackEffect(position, strength).Some?
    ensures var f := FeedbackEffect(position, strength).value.forces;
      f[0] == 0xFF && f[1] == 0x03 && f[6..] == [0, 0, 0, 0] &&
      LeValue(f[2..6]) == ZoneField(strength - 1, 10)
    ensures var f := FeedbackEffect(position, strength).value.forces;
      forall j :: 2 <= j < 6 ==> 0 <= f[j] < 256
  {
    var f := FeedbackEffect(position, strength).value.forces;
    var z := ZoneField(strength - 1, 10);
    assert f[2..6] == LeBytes(z, 4);
    ZoneFieldFits(strength - 1);
    Pow2Values();
    LeValueOfLeBytes(z, 4);
  }

  /** A generator's ten-slot zone field is a 30-bit word. */
  lemma ZoneFieldFits(v: nat)
    requires v < 8
    ensures ZoneField(v, 10) < Pow2(30) && Pow2(30) == 0x4000_0000
    ensures Pow2(30) < Pow2(32)
  {
    ZoneFieldBound(v, 10);
    Pow2Values();
  }

  /** All ten slots of a generator's zone field hold the same value. */
  lemma ZoneFieldSlots(v: nat)
    requires v < 8
    ensures forall i :: 0 <= i < 10 ==> Slot(ZoneField(v, 10), i) == v
  {
    forall i | 0 <= i < 10
      ensures Slot(ZoneField(v, 10), i) == v
    {
      ZoneFieldSlot(v, 10, i);
    }
  }

  /** The position is checked but chooses nothing. */
  lemma FeedbackIgnoresPosition(p: int, q: int, strength: int)
    requires 0 <= p <= 9 && 0 <= q <= 9
    ensures FeedbackEffect(p, strength) == FeedbackEffect(q, strength)
  {
  }

  /** The 16-bit word with the start and end zone bits set. */
  function StartStopWord(startPosition: nat, endPosition: nat): nat
  {
    Pow2(startPosition) + Pow2(endPosition)
  }

  /** Weapon: a resistance of `strength` between a start and an end zone. */
  function WeaponEffect(startPosition: int, endPosition: int, strength: int): (r: Option<TriggerEffect>)
    ensures r.Some? <==>
      2 <= startPosition <= 7 && startPosition < endPosition <= 8 && 0 < strength <= 8
    ensures r.Some? ==> r.value.mode == ModeFfbWeapon && |r.value.forces| == 10
  {
    if !(2 <= startPosition <= 7) then None
    else if endPosition > 8 then None
    else if endPosition <= startPosition then None
    else if strength > 8 then None
    else if 0 < strength <= 8 then
      Some(TriggerEffect(ModeFfbWeapon,
        LeBytes(StartStopWord(startPosition, endPosition), 2) + [strength - 1] + Zeros(7)))
    else None
  }

  lemma BitSetHalf(x: nat, k: nat)
    requires k > 0
    ensures BitSet(x, k) == BitSet(x / 2, k - 1)
  {
    DivDiv(x, 2, Pow2(k - 1));
  }

  /** A power of two has exactly one bit set. */
  lemma {:induction false} SingleBit(e: nat, k: nat)
    ensures BitSet(Pow2(e), k) <==> k == e
    decreases k
  {
    if k == 0 {
      if e > 0 {
        assert Pow2(e) == 2 * Pow2(e - 1);
      }
    } else {
      BitSetHalf(Pow2(e), k);
      if e > 0 {
        SingleBit(e - 1, k - 1);
      }
    }
  }

  /** The sum of two distinct powers of two has exactly those two bits set. */
  lemma {:induction false} TwoBits(s: nat, e: nat, k: nat)
    requires s < e
    ensures BitSet(Pow2(s) + Pow2(e), k) <==> (k == s || k == e)
    decreases s
  {
    var x := Pow2(s) + Pow2(e);
    assert Pow2(e) == 2 * Pow2(e - 1);
    if s == 0 {
      assert x / 2 == Pow2(e - 1) && x % 2 == 1;
      if k > 0 {
        BitSetHalf(x, k);
        SingleBit(e - 1, k - 1);
      }
    } else {
      assert Pow2(s) == 2 * Pow2(s - 1);
      assert x / 2 == Pow2(s - 1) + Pow2(e - 1) && x % 2 == 0;
      if k > 0 {
        BitSetHalf(x, k);
        TwoBits(s - 1, e - 1, k - 1);
      }
    }
  }

  /**
   * A weapon effect's 16-bit zone word in parameters 0 and 1 has exactly
   * the start and end bits set, parameter 2 is `strength - 1`, and the
   * remaining parameters are zero.
   */
  lemma WeaponLayout(startPosition: int, endPosition: int, strength: int)
    requires WeaponEffect(startPosition, endPosition, strength).Some?
    ensures var f := WeaponEffect(startPosition, endPosition, strength).value.forces;
      LeValue(f[..2]) == StartStopWord(startPosition, endPosition) &&
      f[2] == strength - 1 && 0 <= f[2] <= 7 && f[3..] == Zeros(7)
    ensures var f := WeaponEffect(startPosition, endPosition, strength).value.forces;
      forall j :: 0 <= j < 2 ==> 0 <= f[j] < 256
  {
    var f := WeaponEffect(startPosition, endPosition, strength).value.forces;
    assert f[..2] == LeBytes(StartStopWord(startPosition, endPosition), 2);
    WeaponWord(startPosition, endPosition);
  }

  /** The start-and-end word fits in the two bytes that carry it. */
  lemma WeaponWord(s: nat, e: nat)
    requires s < e <= 8
    ensures LeValue(LeBytes(StartStopWord(s, e), 2)) == StartStopWord(s, e)
  {
    WeaponWordFits(s, e);
    LeValueOfLeBytes(StartStopWord(s, e), 2);
  }

  lemma WeaponWordFits(s: nat, e: nat)
    requires s < e <= 8
    ensures StartStopWord(s, e) < Pow2(8 * 2)
  {
    Pow2Monotone(s, e);
    Pow2Monotone(e, 16);
  }

  /** Within the 16-bit word, exactly the start and end zone bits are set. */
  lemma WeaponZoneBits(s: nat, e: nat)
    requires s < e <= 8
    ensures forall k :: 0 <= k < 16 ==> (BitSet(StartStopWord(s, e), k) <==> k == s || k == e)
  {
    forall k | 0 <= k < 16
      ensures BitSet(StartStopWord(s, e), k) <==> k == s || k == e
    {
      TwoBits(s, e, k);
    }
  }

  /** Vibration: `amplitude` in every zone at `frequency`. */
  function VibrationEffect(position: int, amplitude: int, frequency: int): (r: Option<TriggerEffect>)
    ensures r.Some? <==> 0 <= position <= 9 && 0 < amplitude <= 8 && frequency > 0
    ensures r.Some? ==> r.value.mode == ModeFfbVibration && |r.value.forces| == 10
  {
    if !(0 <= position <= 9) then None
    else if amplitude > 8 then None
    else if amplitude > 0 && frequency > 0 then
      Some(TriggerEffect(ModeFfbVibration,
        LeBytes(AllZones, 2) + LeBytes(ZoneField(amplitude - 1, 10), 6) + [frequency, 0]))
    else None
  }

  /**
   * A vibration effect marks all zones active, puts `amplitude - 1` in each
   * slot of the word in parameters 2 to 7, whose top two bytes are always
   * zero because the field has 30 bits, and carries the frequency,
   * unbounded, in parameter 8.
   */
  lemma VibrationLayout(position: int, amplitude: int, frequency: int)
    requires VibrationEffect(position, amplitude, frequency).Some?
    ensures var f := VibrationEffect(position, amplitude, frequency).value.forces;
      f[0] == 0xFF && f[1] == 0x03 && f[6] == 0 && f[7] == 0 &&
      f[8] == frequency && f[9] == 0 &&
      LeValue(f[2..8]) == ZoneField(amplitude - 1, 10)
    ensures var f := VibrationEffect(position, amplitude, frequency).value.forces;
      forall j :: 2 <= j < 8 ==> 0 <= f[j] < 256
  {
    var f := VibrationEffect(position, amplitude, frequency).value.forces;
    var z := ZoneField(amplitude - 1, 10);
    assert f[2..8] == LeBytes(z, 6);
    assert f[6] == LeBytes(z, 6)[4] && f[7] == LeBytes(z, 6)[5];
    ZoneFieldSixBytes(amplitude - 1);
  }

  /** A 30-bit zone field spread over six bytes leaves the top two zero. */
  lemma ZoneFieldSixBytes(v: nat)
    requires v < 8
    ensures LeValue(LeBytes(ZoneField(v, 10), 6)) == ZoneField(v, 10)
    ensures LeBytes(ZoneField(v, 10), 6)[4] == 0 && LeBytes(ZoneField(v, 10), 6)[5] == 0
  {
    var z := ZoneField(v, 10);
    ZoneFieldFits(v);
    Pow2Monotone(30, 48);
    LeValueOfLeBytes(z, 6);
    TopByteZero(z, 4);
    TopByteZero(z, 5);
  }

  /** Byte `j >= 4` of a little-endian word below 2^30 is zero. */
  lemma TopByteZero(z: nat, j: nat)
    requires z < Pow2(30) && 4 <= j < 6
    ensures LeBytes(z, 6)[j] == 0
  {
    var p := Pow2(8 * j);
    LeBytesAt(z, 6, j);
    Pow2Monotone(30, 8 * j);
    DivModUnique(z, p, 0, z);
  }

  lemma VibrationIgnoresPosition(p: int, q: int, amplitude: int, frequency: int)
    requires 0 <= p <= 9 && 0 <= q <= 9
    ensures VibrationEffect(p, amplitude, frequency) == VibrationEffect(q, amplitude, frequency)
  {
  }

  // ----- the generators -----

  /** A trigger with its effect switched off and every force zero. */
  method FfbOff() returns (dst: TriggerModel)
    ensures fresh(dst) && dst.Valid()
    ensures dst.Effect() == TriggerEffect(ModeFfbOff, Zeros(10))
  {
    dst := new TriggerModel();
    dst.mode := ModeFfbOff;
  }

  /** The feedback generator's six writes into the default forces. */
  lemma SpliceFeedback(a: nat, z: nat)
    ensures Zeros(10)[0 := And(Shr(a, 0), 0xFF)][1 := And(Shr(a, 8), 0xFF)]
        [2 := And(Shr(z, 0), 0xFF)][3 := And(Shr(z, 8), 0xFF)]
        [4 := And(Shr(z, 16), 0xFF)][5 := And(Shr(z, 24), 0xFF)]
      == LeBytes(a, 2) + LeBytes(z, 4) + Zeros(4)
  {
    BytesOf2(a);
    BytesOf4(z);
  }

  lemma FeedbackForces(position: int, strength: int, f: seq<int>)
    requires 0 <= position <= 9 && 0 < strength <= 8
    requires f == LeBytes(AllZones, 2) + LeBytes(ZoneField(strength - 1, 10), 4) + Zeros(4)
    ensures Some(TriggerEffect(ModeFfbFeedback, f)) == FeedbackEffect(position, strength)
  {
  }

  method FfbFeedback(position: int, strength: int) returns (r: Option<TriggerModel>)
    ensures r.Some? ==> fresh(r.value) && r.value.Valid()
    ensures EffectOf(r) == FeedbackEffect(position, strength)
  {
    if !(0 <= position <= 9) {
      return None;
    }
    if 0 < strength <= 8 {
      var dst := new TriggerModel();
      var forceValue := strength - 1;
      var forceZones, activeZones := PackZones(forceValue);

      dst.mode := ModeFfbFeedback;
      dst.forces := dst.forces[0 := And(Shr(activeZones, 0), 0xFF)];
      dst.forces := dst.forces[1 := And(Shr(activeZones, 8), 0xFF)];
      dst.forces := dst.forces[2 := And(Shr(forceZones, 0), 0xFF)];
      dst.forces := dst.forces[3 := And(Shr(forceZones, 8), 0xFF)];
      dst.forces := dst.forces[4 := And(Shr(forceZones, 16), 0xFF)];
      dst.forces := dst.forces[5 := And(Shr(forceZones, 24), 0xFF)];

      SpliceFeedback(activeZones, forceZones);
      FeedbackForces(position, strength, dst.forces);
      r := Some(dst);
    } else {
      r := None;
    }
  }

  /** `(1 << s) | (1 << e)` for two different zones is the sum of their bits. */
  lemma TwoZones(s: nat, e: nat)
    requires s < e
    ensures Or(Shl(1, s), Shl(1, e)) == StartStopWord(s, e)
  {
    Pow2Monotone(s, e);
    OrDisjoint(Pow2(s), 1, e);
  }

  /** The weapon generator's three writes into the default forces. */
  lemma SpliceWeapon(w: nat, c: int)
    ensures Zeros(10)[0 := And(Shr(w, 0), 0xFF)][1 := And(Shr(w, 8), 0xFF)][2 := c]
      == LeBytes(w, 2) + [c] + Zeros(7)
  {
    BytesOf2(w);
  }

  lemma WeaponForces(s: int, e: int, strength: int, f: seq<int>)
    requires 2 <= s <= 7 && s < e <= 8 && 0 < strength <= 8
    requires f == LeBytes(StartStopWord(s, e), 2) + [strength - 1] + Zeros(7)
    ensures Some(TriggerEffect(ModeFfbWeapon, f)) == WeaponEffect(s, e, strength)
  {
  }

  method FfbWeapon(startPosition: int, endPosition: int, strength: int) returns (r: Option<TriggerModel>)
    ensures r.Some? ==> fresh(r.value) && r.value.Valid()
    ensures EffectOf(r) == WeaponEffect(startPosition, endPosition, strength)
  {
    if !(2 <= startPosition <= 7) {
      return None;
    }
    if endPosition > 8 {
      return None;
    }
    if endPosition <= startPosition {
      return None;
    }
    if strength > 8 {
      return None;
    }
    if 0 < strength <= 8 {
      var dst := new TriggerModel();
      var startAndStopZone := Or(Shl(1, startPosition), Shl(1, endPosition));

      dst.mode := ModeFfbWeapon;
      dst.forces := dst.forces[0 := And(Shr(startAndStopZone, 0), 0xFF)];
      dst.forces := dst.forces[1 := And(Shr(startAndStopZone, 8), 0xFF)];
      dst.forces := dst.forces[2 := strength - 1];

      TwoZones(startPosition, endPosition);
      SpliceWeapon(startAndStopZone, strength - 1);
      WeaponForces(startPosition, endPosition, strength, dst.forces);
      r := Some(dst);
    } else {
      r := None;
    }
  }

  /** Masking with 0x07 keeps a value that already fits in three bits. */
  lemma LowThreeBits(x: nat)
    requires x < 8
    ensures And(x, 0x07) == x
  {
    AndLow(x, 3);
    Pow2Small();
  }

  /** The vibration generator's nine writes into the default forces. */
  lemma SpliceVibration(a: nat, z: nat, frequency: int)
    ensures Zeros(10)[0 := And(Shr(a, 0), 0xFF)][1 := And(Shr(a, 8), 0xFF)]
        [2 := And(Shr(z, 0), 0xFF)][3 := And(Shr(z, 8), 0xFF)]
        [4 := And(Shr(z, 16), 0xFF)][5 := And(Shr(z, 24), 0xFF)]
        [6 := And(Shr(z, 32), 0xFF)][7 := And(Shr(z, 40), 0xFF)][8 := frequency]
      == LeBytes(a, 2) + LeBytes(z, 6) + [frequency, 0]
  {
    BytesOf2(a);
    BytesOf6(z);
  }

  lemma VibrationForces(position: int, amplitude: int, frequency: int, f: seq<int>)
    requires 0 <= position <= 9 && 0 < amplitude <= 8 && frequency > 0
    requires f == LeBytes(AllZones, 2) + LeBytes(ZoneField(amplitude - 1, 10), 6) + [frequency, 0]
    ensures Some(TriggerEffect(ModeFfbVibration, f)) == VibrationEffect(position, amplitude, frequency)
  {
  }

  /**
   * The vibration generator's nine writes into the default forces: the
   * active mask, the six bytes of the amplitude field, then the frequency.
   */
  method WriteVibration(forces: seq<int>, activeZones: nat, amplitudeZones: nat, frequency: int)
    returns (f: seq<int>)
    requires forces == Zeros(10)
    ensures f == LeBytes(activeZones, 2) + LeBytes(amplitudeZones, 6) + [frequency, 0]
  {
    f := forces;
    f := f[0 := And(Shr(activeZones, 0), 0xFF)];
    f := f[1 := And(Shr(activeZones, 8), 0xFF)];
    f := f[2 := And(Shr(amplitudeZones, 0), 0xFF)];
    f := f[3 := And(Shr(amplitudeZones, 8), 0xFF)];
    f := f[4 := And(Shr(amplitudeZones, 16), 0xFF)];
    f := f[5 := And(Shr(amplitudeZones, 24), 0xFF)];
    f := f[6 := And(Shr(amplitudeZones, 32), 0xFF)];
    f := f[7 := And(Shr(amplitudeZones, 40), 0xFF)];
    f := f[8 := frequency];
    SpliceVibration(activeZones, amplitudeZones, frequency);
  }

  method FfbVibration(position: int, amplitude: int, frequency: int) returns (r: Option<TriggerModel>)
    ensures r.Some? ==> fresh(r.value) && r.value.Valid()
    ensures EffectOf(r) == VibrationEffect(position, amplitude, frequency)
  {
    if !(0 <= position <= 9) {
      return None;
    }
    if amplitude > 8 {
      return None;
    }
    if amplitude > 0 && frequency > 0 {
      var dst := new TriggerModel();
      var strengthValue := And(amplitude - 1, 0x07);
      LowThreeBits(amplitude - 1);
      var amplitudeZones, activeZones := PackZones(strengthValue);

      dst.mode := ModeFfbVibration;
      dst.forces := WriteVibration(dst.forces, activeZones, amplitudeZones, frequency);
      VibrationForces(position, amplitude, frequency, dst.forces);
      r := Some(dst);
    } else {
      r := None;
    }
  }
}
