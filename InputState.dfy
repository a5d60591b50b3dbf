/**
 * The input-report decoder: the controller's telemetry report, a byte
 * buffer, is read into a `DeviceInputState` object field by field.
 *
 * The pure function `Decode` is the specification of one decoding pass; the
 * method `DeviceInputState.FromState`, written as the source writes it,
 * is proved to leave the object in exactly the state `Decode` describes.
 * Offsets are those of the transport-normalised buffer (the Bluetooth
 * report with its first byte dropped, see `NormalizedInput`).
 */
module InputState {
  import opened Bits
  import opened Enums

  // ----- the d-pad -----

  datatype Dpad = Dpad(up: bool, down: bool, left: bool, right: bool)

  /**
   * The d-pad table by direction: code 0 is north and the codes turn
   * clockwise in steps of 45 degrees; every other code is neutral.
   */
  function DpadOf(code: int): (d: Dpad)
    ensures !(d.up && d.down) && !(d.left && d.right)
    ensures !(0 <= code < 8) ==> d == Dpad(false, false, false, false)
  {
    Dpad(up := code in {7, 0, 1}, down := code in {3, 4, 5},
         left := code in {5, 6, 7}, right := code in {1, 2, 3})
  }

  function Pressed(d: Dpad): nat
  {
    (if d.up then 1 else 0) + (if d.down then 1 else 0) +
    (if d.left then 1 else 0) + (if d.right then 1 else 0)
  }

  /** Even codes press one direction (0 up, 2 right, 4 down, 6 left), odd codes the two neighbouring ones. */
  lemma DpadDirections(code: int)
    requires 0 <= code < 8
    ensures Pressed(DpadOf(code)) == (if code % 2 == 0 then 1 else 2)
    ensures code == 0 ==> DpadOf(code) == Dpad(up := true, down := false, left := false, right := false)
    ensures code == 2 ==> DpadOf(code) == Dpad(up := false, down := false, left := false, right := true)
    ensures code == 4 ==> DpadOf(code) == Dpad(up := false, down := true, left := false, right := false)
    ensures code == 6 ==> DpadOf(code) == Dpad(up := false, down := false, left := true, right := false)
    ensures code % 2 == 1 ==> DpadOf(code) == Dpad(
      up := code == 7 || code == 1, down := code == 3 || code == 5,
      left := code == 5 || code == 7, right := code == 1 || code == 3)
  {
  }

  class DpadModel {
    var up: bool
    var down: bool
    var left: bool
    var right: bool

    constructor ()
      ensures Value() == Dpad(false, false, false, false)
    {
      up, down, left, right := false, false, false, false;
    }

    function Value(): Dpad
      reads this
    {
      Dpad(up, down, left, right)
    }

    /** Set the four directions from a d-pad code. */
    method FromState(state: int)
      modifies this
      ensures Value() == DpadOf(state)
    {
      if state == 0 {
        up := true;
        down, left, right := false, false, false;
      } else if state == 1 {
        up, right := true, true;
        down, left := false, false;
      } else if state == 2 {
        right := true;
        up, down, left := false, false, false;
      } else if state == 3 {
        right, down := true, true;
        up, left := false, false;
      } else if state == 4 {
        down := true;
        up, right, left := false, false, false;
      } else if state == 5 {
        down, left := true, true;
        up, right := false, false;
      } else if state == 6 {
        left := true;
        up, down, right := false, false, false;
      } else if state == 7 {
        left, up := true, true;
        down, right := false, false;
      } else {
        up, down, left, right := false, false, false, false;
      }
    }
  }

  // ----- field extraction -----

  /** A stick as raw bytes; the source scales each axis to `(raw - 127) / 127.0`. */
  datatype Joystick = Joystick(x: byte, y: byte, pressed: bool)

  datatype Touch = Touch(isActive: bool, id: int, x: int, y: int)

  /** A motion vector as raw signed 16-bit readings; the source divides each by 8192.0. */
  datatype Vector = Vector(x: int, y: int, z: int)

  datatype Battery = Battery(state: int, level: int)

  lemma LowNibble(b: nat)
    ensures And(b, 0x0F) == b % 16
  {
    AndLow(b, 4);
  }

  lemma HighNibbleMask(b: byte)
    ensures And(b, 0xF0) == (b / 16) * 16
  {
    Pow2Small();
    var q := b / 16;
    DivModUnique(q, 16, 0, q);
    AndField(b, 4, 4, 16, 16);
  }

  lemma HighNibble(b: byte)
    ensures Shr(And(b, 0xF0), 4) == b / 16
  {
    HighNibbleMask(b);
    Pow2Small();
    ScaledDiv(b / 16, 16);
  }

  lemma LowSevenBits(b: nat)
    ensures And(b, 0x7F) == b % 128
  {
    AndLow(b, 7);
  }

  lemma HighBitClear(b: byte)
    ensures (And(b, 0x80) == 0) == (b < 128)
  {
    TestBit(b, 7);
    Pow2Small();
    assert BitSet(b, 7) == (b / 128 == 1);
  }

  /** The tests `(b & (1 << k)) != 0` for bits 7 to 4 read the binary digits of `b`. */
  lemma HighFlags(b: byte)
    ensures (And(b, Shl(1, 7)) != 0, And(b, Shl(1, 6)) != 0,
             And(b, Shl(1, 5)) != 0, And(b, Shl(1, 4)) != 0)
         == ((b / 128) % 2 == 1, (b / 64) % 2 == 1, (b / 32) % 2 == 1, (b / 16) % 2 == 1)
  {
    Pow2Small();
    TestBit(b, 7); TestBit(b, 6); TestBit(b, 5); TestBit(b, 4);
  }

  /** The tests `(b & (1 << k)) != 0` for bits 3 to 0. */
  lemma LowFlags(b: byte)
    ensures (And(b, Shl(1, 3)) != 0, And(b, Shl(1, 2)) != 0,
             And(b, Shl(1, 1)) != 0, And(b, Shl(1, 0)) != 0)
         == ((b / 8) % 2 == 1, (b / 4) % 2 == 1, (b / 2) % 2 == 1, b % 2 == 1)
  {
    Pow2Small();
    TestBit(b, 3); TestBit(b, 2); TestBit(b, 1); TestBit(b, 0);
  }

  /** Byte 10 tests bit 0 with a shift and bits 1 and 2 with literal masks. */
  lemma Misc2Flags(b: byte)
    ensures (And(b, Shl(1, 0)) != 0, And(b, 0x02) != 0, And(b, 0x04) != 0)
         == (b % 2 == 1, (b / 2) % 2 == 1, (b / 4) % 2 == 1)
  {
    Pow2Small();
    TestBit(b, 0); TestBit(b, 1); TestBit(b, 2);
  }

  /** `(y << k) | x` with `x` below `2^k` places `y` above `x`. */
  lemma Join(x: nat, y: nat, k: nat)
    requires k == 4 || k == 8
    requires x < Pow2(k)
    ensures Or(Shl(y, k), x) == x + y * (if k == 4 then 16 else 256)
  {
    Pow2Values();
    OrCommutes(Shl(y, k), x);
    OrDisjoint(x, y, k);
  }

  /**
   * One touch point from its four bytes `b0..b3`: bit 7 of `b0` is set
   * while the finger is lifted, bits 6-0 are the touch id, and two 12-bit
   * coordinates are packed little-endian into `b1..b3`.
   */
  function TouchOf(b0: byte, b1: byte, b2: byte, b3: byte): (t: Touch)
    ensures 0 <= t.id < 128 && 0 <= t.x < 4096 && 0 <= t.y < 4096
  {
    Touch(isActive := b0 < 128, id := b0 % 128,
          x := b1 + 256 * (b2 % 16), y := 16 * b3 + b2 / 16)
  }

  /** The source's masks and shifts compute exactly `TouchOf`. */
  lemma TouchBits(b0: byte, b1: byte, b2: byte, b3: byte)
    ensures Touch(isActive := And(b0, 0x80) == 0,
                  id := And(b0, 0x7F),
                  x := Or(Shl(And(b2, 0x0F), 8), b1),
                  y := Or(Shl(b3, 4), Shr(And(b2, 0xF0), 4)))
            == TouchOf(b0, b1, b2, b3)
  {
    LowSevenBits(b0);
    HighBitClear(b0);
    LowNibble(b2);
    HighNibble(b2);
    Pow2Values();
    Join(b1, b2 % 16, 8);
    Join(b2 / 16, b3, 4);
  }

  /** `int.from_bytes([lo, hi], byteorder="little", signed=True)` */
  function Int16Le(lo: byte, hi: byte): (v: int)
    ensures -0x8000 <= v < 0x8000
    ensures v % 0x1_0000 == lo + 256 * hi
  {
    var u := lo + 256 * hi;
    if u >= 0x8000 then u - 0x1_0000 else u
  }

  /** The two's-complement little-endian bytes of a signed 16-bit value. */
  function Int16Bytes(v: int): (lohi: (byte, byte))
    requires -0x8000 <= v < 0x8000
    ensures Int16Le(lohi.0, lohi.1) == v
  {
    var u := v % 0x1_0000;
    (u % 256, u / 256)
  }

  /** Every pair of bytes is the encoding of the value it decodes to. */
  lemma Int16RoundTrip(lo: byte, hi: byte)
    ensures Int16Bytes(Int16Le(lo, hi)) == (lo, hi)
  {
    var u := lo + 256 * hi;
    assert Int16Le(lo, hi) % 0x1_0000 == u;
    DivModUnique(u, 256, hi, lo);
  }

  function Min(a: int, b: int): int
  {
    if a < b then a else b
  }

  /**
   * The battery byte: the state code is the high nibble, and the charge
   * level in percent is ten per step of the low nibble plus five, capped
   * at 100.
   */
  function BatteryOf(b: byte): (bat: Battery)
    ensures 0 <= bat.state < 16
    ensures 5 <= bat.level <= 100
    ensures bat.level == 100 <==> b % 16 >= 10
  {
    Battery(state := b / 16, level := Min(10 * (b % 16) + 5, 100))
  }

  /** The source's masks and shifts compute exactly `BatteryOf`. */
  lemma BatteryBits(b: byte)
    ensures Battery(Shr(And(b, 0xF0), 4), Min(And(b, 0x0F) * 10 + 5, 100)) == BatteryOf(b)
  {
    LowNibble(b);
    HighNibble(b);
  }

  // ----- the decoded state -----

  datatype InputSnapshot = InputSnapshot(
    L1: bool, L2: byte, L3: bool,
    R1: bool, R2: byte, R3: bool,
    leftJoystick: Joystick, rightJoystick: Joystick,
    triangle: bool, circle: bool, cross: bool, square: bool,
    dpad: Dpad,
    options: bool, share: bool, ps: bool,
    touchBtn: bool, micBtn: bool,
    accel: Vector, gyroscope: Vector,
    trackPadTouch0: Touch, trackPadTouch1: Touch,
    battery: Battery)

  /**
   * The state one decoding pass produces from a normalised input buffer,
   * stated arithmetically: bit `k` of a byte, nibbles as division and
   * remainder by 16. Whatever the buffer, the d-pad never presses opposite
   * directions, touch ids and coordinates fit their 7 and 12 bits, motion
   * values are signed 16-bit and the battery level lies in 5..100.
   */
  function Decode(s: seq<byte>): (d: InputSnapshot)
    requires |s| >= 54
    ensures !(d.dpad.up && d.dpad.down) && !(d.dpad.left && d.dpad.right)
    ensures d.trackPadTouch0.id < 128 && d.trackPadTouch0.x < 4096 && d.trackPadTouch0.y < 4096
    ensures d.trackPadTouch1.id < 128 && d.trackPadTouch1.x < 4096 && d.trackPadTouch1.y < 4096
    ensures -0x8000 <= d.accel.x < 0x8000 && -0x8000 <= d.accel.y < 0x8000 && -0x8000 <= d.accel.z < 0x8000
    ensures -0x8000 <= d.gyroscope.x < 0x8000 && -0x8000 <= d.gyroscope.y < 0x8000 &&
      -0x8000 <= d.gyroscope.z < 0x8000
    ensures d.battery.state < 16 && 5 <= d.battery.level <= 100
  {
    InputSnapshot(
      L1 := (s[9] % 2 == 1), L2 := s[5], L3 := ((s[9] / 64) % 2 == 1),
      R1 := ((s[9] / 2) % 2 == 1), R2 := s[6], R3 := ((s[9] / 128) % 2 == 1),
      leftJoystick := Joystick(s[1], s[2], ((s[9] / 4) % 2 == 1)),
      rightJoystick := Joystick(s[3], s[4], ((s[9] / 8) % 2 == 1)),
      triangle := ((s[8] / 128) % 2 == 1), circle := ((s[8] / 64) % 2 == 1),
      cross := ((s[8] / 32) % 2 == 1), square := ((s[8] / 16) % 2 == 1),
      dpad := DpadOf(s[8] % 16),
      options := ((s[9] / 32) % 2 == 1), share := ((s[9] / 16) % 2 == 1),
      ps := (s[10] % 2 == 1), touchBtn := ((s[10] / 2) % 2 == 1), micBtn := ((s[10] / 4) % 2 == 1),
      accel := Vector(Int16Le(s[22], s[23]), Int16Le(s[24], s[25]), Int16Le(s[26], s[27])),
      gyroscope := Vector(Int16Le(s[16], s[17]), Int16Le(s[18], s[19]), Int16Le(s[20], s[21])),
      trackPadTouch0 := TouchOf(s[33], s[34], s[35], s[36]),
      trackPadTouch1 := TouchOf(s[37], s[38], s[39], s[40]),
      battery := BatteryOf(s[53]))
  }

  /**
   * Decoding reads only offsets 1 to 53: buffers that agree there decode
   * alike, whatever their byte 0 (always 1) and their tail.
   */
  lemma DecodeReadsOnlyFields(s: seq<byte>, s': seq<byte>)
    requires |s| >= 54 && |s'| >= 54
    requires forall i :: 1 <= i <= 53 ==> s[i] == s'[i]
    ensures Decode(s) == Decode(s')
  {
  }

  /**
   * The buffer the decoder is given for a report read from transport `t`:
   * a Bluetooth report carries one extra leading byte, which is dropped so
   * that both transports share one offset table.
   */
  function NormalizedInput(t: ConnectionType, report: seq<byte>): (s: seq<byte>)
    requires |report| == InReportLength(t)
    ensures |s| == (if t == BT then |report| - 1 else |report|) && |s| >= 54
    ensures forall i :: 0 <= i < |s| ==> s[i] == report[if t == BT then i + 1 else i]
  {
    if t == BT then report[1..] else report
  }

  class DeviceInputState {
    var L1: bool
    var L2: byte
    var L3: bool
    var R1: bool
    var R2: byte
    var R3: bool
    var leftJoystick: Joystick
    var rightJoystick: Joystick
    var triangle: bool
    var circle: bool
    var cross: bool
    var square: bool
    const dpad: DpadModel
    var options: bool
    var share: bool
    var ps: bool
    /** Declared by the source but never written by the decoder. */
    var mic: bool
    var touchBtn: bool
    var micBtn: bool
    var accel: Vector
    var gyroscope: Vector
    var trackPadTouch0: Touch
    var trackPadTouch1: Touch
    var battery: Battery

    /**
     * Every field at its default. Stick positions are held as raw bytes, so
     * the default position 0.0 is the centre byte 127, which scales to 0.0.
     */
    constructor ()
      ensures fresh(dpad) && !mic
      ensures Snapshot() == InputSnapshot(
        false, 0, false, false, 0, false,
        Joystick(127, 127, false), Joystick(127, 127, false),
        false, false, false, false,
        Dpad(false, false, false, false),
        false, false, false, false, false,
        Vector(0, 0, 0), Vector(0, 0, 0),
        Touch(false, 0, 0, 0), Touch(false, 0, 0, 0),
        Battery(BatteryDischarging, 0))
    {
      L1, L2, L3, R1, R2, R3 := false, 0, false, false, 0, false;
      leftJoystick, rightJoystick := Joystick(127, 127, false), Joystick(127, 127, false);
      triangle, circle, cross, square := false, false, false, false;
      dpad := new DpadModel();
      options, share, ps, mic := false, false, false, false;
      touchBtn, micBtn := false, false;
      accel, gyroscope := Vector(0, 0, 0), Vector(0, 0, 0);
      trackPadTouch0, trackPadTouch1 := Touch(false, 0, 0, 0), Touch(false, 0, 0, 0);
      battery := Battery(BatteryDischarging, 0);
    }

    function Snapshot(): InputSnapshot
      reads this, dpad
    {
      InputSnapshot(
        L1, L2, L3, R1, R2, R3, leftJoystick, rightJoystick,
        triangle, circle, cross, square, dpad.Value(),
        options, share, ps, touchBtn, micBtn,
        accel, gyroscope, trackPadTouch0, trackPadTouch1, battery)
    }

    /**
     * Overwrite every decoded field from the buffer. The result does not
     * depend on the previous state, so decoding the same buffer again
     * leaves the same state. The source decodes in one function; the model
     * runs it as consecutive steps, one per group of report bytes, in the
     * source's order.
     */
    method FromState(state: seq<byte>)
      requires |state| >= 54
      modifies this, dpad
      ensures Snapshot() == Decode(state)
      ensures mic == old(mic)
    {
      ReadControls(state);
      ghost var controls := (L1, L2, L3, R1, R2, R3, leftJoystick, rightJoystick,
        triangle, circle, cross, square, dpad.Value(), options, share, ps, touchBtn, micBtn);
      ReadSensors(state);
      assert (L1, L2, L3, R1, R2, R3, leftJoystick, rightJoystick,
        triangle, circle, cross, square, dpad.Value(), options, share, ps, touchBtn, micBtn) == controls;
    }

    /** Bytes 1-10: sticks, analog triggers and every button. */
    method ReadControls(state: seq<byte>)
      requires |state| >= 54
      modifies this`L1, this`L2, this`L3, this`R1, this`R2, this`R3
      modifies this`leftJoystick, this`rightJoystick
      modifies this`triangle, this`circle, this`cross, this`square
      modifies this`options, this`share, this`ps, this`touchBtn, this`micBtn, dpad
      ensures var d := Decode(state);
        (L1, L2, L3, R1, R2, R3, leftJoystick, rightJoystick,
         triangle, circle, cross, square, dpad.Value(),
         options, share, ps, touchBtn, micBtn)
        == (d.L1, d.L2, d.L3, d.R1, d.R2, d.R3, d.leftJoystick, d.rightJoystick,
            d.triangle, d.circle, d.cross, d.square, d.dpad,
            d.options, d.share, d.ps, d.touchBtn, d.micBtn)
    {
      ReadFront(state);
      ghost var front := (L2, R2, triangle, circle, cross, square, dpad.Value());
      ReadMisc(state);
      assert (L2, R2, triangle, circle, cross, square, dpad.Value()) == front;
    }

    /** Bytes 1-8: sticks, analog triggers, face buttons and the d-pad. */
    method ReadFront(state: seq<byte>)
      requires |state| >= 54
      modifies this`leftJoystick, this`rightJoystick, this`L2, this`R2
      modifies this`triangle, this`circle, this`cross, this`square, dpad
      ensures var d := Decode(state);
        (leftJoystick, rightJoystick, L2, R2, triangle, circle, cross, square, dpad.Value())
        == (old(leftJoystick).(x := state[1], y := state[2]),
            old(rightJoystick).(x := state[3], y := state[4]),
            d.L2, d.R2, d.triangle, d.circle, d.cross, d.square, d.dpad)
    {
      ReadSticks(state);
      ReadFaceButtons(state);
    }

    /** Bytes 1-6: stick positions and analog triggers. */
    method ReadSticks(state: seq<byte>)
      requires |state| >= 54
      modifies this`leftJoystick, this`rightJoystick, this`L2, this`R2
      ensures (leftJoystick, rightJoystick, L2, R2)
        == (old(leftJoystick).(x := state[1], y := state[2]),
            old(rightJoystick).(x := state[3], y := state[4]), state[5], state[6])
    {
      leftJoystick := leftJoystick.(x := state[1]);
      leftJoystick := leftJoystick.(y := state[2]);
      rightJoystick := rightJoystick.(x := state[3]);
      rightJoystick := rightJoystick.(y := state[4]);
      L2 := state[5];
      R2 := state[6];
    }

    /** Byte 8: face buttons in the high nibble, the d-pad code in the low one. */
    method ReadFaceButtons(state: seq<byte>)
      requires |state| >= 54
      modifies this`triangle, this`circle, this`cross, this`square, dpad
      ensures var d := Decode(state);
        (triangle, circle, cross, square, dpad.Value())
        == (d.triangle, d.circle, d.cross, d.square, d.dpad)
    {
      var buttonState := state[8];
      triangle := And(buttonState, Shl(1, 7)) != 0;
      circle := And(buttonState, Shl(1, 6)) != 0;
      cross := And(buttonState, Shl(1, 5)) != 0;
      square := And(buttonState, Shl(1, 4)) != 0;

      dpad.FromState(And(buttonState, 0x0F));
      HighFlags(buttonState);
      LowNibble(buttonState);
    }

    /** Bytes 9-10: stick presses, shoulder buttons, options, share, PS, touchpad, mute. */
    method ReadMisc(state: seq<byte>)
      requires |state| >= 54
      modifies this`leftJoystick, this`rightJoystick, this`L1, this`L3, this`R1, this`R3
      modifies this`options, this`share, this`ps, this`touchBtn, this`micBtn
      ensures var d := Decode(state);
        (R3, L3, options, share, rightJoystick, leftJoystick, R1, L1, ps, touchBtn, micBtn)
        == (d.R3, d.L3, d.options, d.share,
            old(rightJoystick).(pressed := d.rightJoystick.pressed),
            old(leftJoystick).(pressed := d.leftJoystick.pressed),
            d.R1, d.L1, d.ps, d.touchBtn, d.micBtn)
    {
      ReadMiscHigh(state);
      ReadMiscLow(state);
      ReadMisc2(state);
    }

    /** Byte 9, bits 7-4: R3, L3, options, share. */
    method ReadMiscHigh(state: seq<byte>)
      requires |state| >= 54
      modifies this`R3, this`L3, this`options, this`share
      ensures var d := Decode(state);
        (R3, L3, options, share) == (d.R3, d.L3, d.options, d.share)
    {
      var misc := state[9];
      R3 := And(misc, Shl(1, 7)) != 0;
      L3 := And(misc, Shl(1, 6)) != 0;
      options := And(misc, Shl(1, 5)) != 0;
      share := And(misc, Shl(1, 4)) != 0;
      HighFlags(misc);
    }

    /** Byte 9, bits 3-0: stick presses, R1, L1. */
    method ReadMiscLow(state: seq<byte>)
      requires |state| >= 54
      modifies this`leftJoystick, this`rightJoystick, this`R1, this`L1
      ensures var d := Decode(state);
        (rightJoystick, leftJoystick, R1, L1)
        == (old(rightJoystick).(pressed := d.rightJoystick.pressed),
            old(leftJoystick).(pressed := d.leftJoystick.pressed), d.R1, d.L1)
    {
      var misc := state[9];
      rightJoystick := rightJoystick.(pressed := And(misc, Shl(1, 3)) != 0);
      leftJoystick := leftJoystick.(pressed := And(misc, Shl(1, 2)) != 0);
      R1 := And(misc, Shl(1, 1)) != 0;
      L1 := And(misc, Shl(1, 0)) != 0;
      LowFlags(misc);
    }

    /** Byte 10: PS, touchpad click, mute button. */
    method ReadMisc2(state: seq<byte>)
      requires |state| >= 54
      modifies this`ps, this`touchBtn, this`micBtn
      ensures var d := Decode(state);
        (ps, touchBtn, micBtn) == (d.ps, d.touchBtn, d.micBtn)
    {
      var misc2 := state[10];
      ps := And(misc2, Shl(1, 0)) != 0;
      touchBtn := And(misc2, 0x02) != 0;
      micBtn := And(misc2, 0x04) != 0;
      Misc2Flags(misc2);
    }

    /** Touch points, gyroscope, accelerometer and battery. */
    method ReadSensors(state: seq<byte>)
      requires |state| >= 54
      modifies this`trackPadTouch0, this`trackPadTouch1, this`gyroscope, this`accel, this`battery
      ensures (trackPadTouch0, trackPadTouch1, gyroscope, accel, battery)
        == (TouchOf(state[33], state[34], state[35], state[36]),
            TouchOf(state[37], state[38], state[39], state[40]),
            Vector(Int16Le(state[16], state[17]), Int16Le(state[18], state[19]), Int16Le(state[20], state[21])),
            Vector(Int16Le(state[22], state[23]), Int16Le(state[24], state[25]), Int16Le(state[26], state[27])),
            BatteryOf(state[53]))
    {
      ReadTouchpad(state);
      ReadMotion(state);
      ReadBattery(state);
    }

    /** Bytes 33-40: the two touch points. */
    method ReadTouchpad(state: seq<byte>)
      requires |state| >= 54
      modifies this`trackPadTouch0, this`trackPadTouch1
      ensures (trackPadTouch0, trackPadTouch1)
        == (TouchOf(state[33], state[34], state[35], state[36]),
            TouchOf(state[37], state[38], state[39], state[40]))
    {
      trackPadTouch0 := trackPadTouch0.(id := And(state[33], 0x7F));
      trackPadTouch0 := trackPadTouch0.(isActive := And(state[33], 0x80) == 0);
      trackPadTouch0 := trackPadTouch0.(x := Or(Shl(And(state[35], 0x0F), 8), state[34]));
      trackPadTouch0 := trackPadTouch0.(y := Or(Shl(state[36], 4), Shr(And(state[35], 0xF0), 4)));
      TouchBits(state[33], state[34], state[35], state[36]);

      trackPadTouch1 := trackPadTouch1.(id := And(state[37], 0x7F));
      trackPadTouch1 := trackPadTouch1.(isActive := And(state[37], 0x80) == 0);
      trackPadTouch1 := trackPadTouch1.(x := Or(Shl(And(state[39], 0x0F), 8), state[38]));
      trackPadTouch1 := trackPadTouch1.(y := Or(Shl(state[40], 4), Shr(And(state[39], 0xF0), 4)));
      TouchBits(state[37], state[38], state[39], state[40]);
    }

    /** Bytes 16-27: gyroscope and accelerometer, signed 16-bit little-endian. */
    method ReadMotion(state: seq<byte>)
      requires |state| >= 54
      modifies this`gyroscope, this`accel
      ensures (gyroscope, accel)
        == (Vector(Int16Le(state[16], state[17]), Int16Le(state[18], state[19]), Int16Le(state[20], state[21])),
            Vector(Int16Le(state[22], state[23]), Int16Le(state[24], state[25]), Int16Le(state[26], state[27])))
    {
      gyroscope := gyroscope.(x := Int16Le(state[16], state[17]));
      gyroscope := gyroscope.(y := Int16Le(state[18], state[19]));
      gyroscope := gyroscope.(z := Int16Le(state[20], state[21]));

      accel := accel.(x := Int16Le(state[22], state[23]));
      accel := accel.(y := Int16Le(state[24], state[25]));
      accel := accel.(z := Int16Le(state[26], state[27]));
    }

    /** Byte 53: battery state and charge level. */
    method ReadBattery(state: seq<byte>)
      requires |state| >= 54
      modifies this`battery
      ensures battery == BatteryOf(state[53])
    {
      var batteryByte := state[53];
      battery := battery.(state := Shr(And(batteryByte, 0xF0), 4));
      battery := battery.(level := Min(And(batteryByte, 0x0F) * 10 + 5, 100));
      BatteryBits(batteryByte);
    }
  }
}
