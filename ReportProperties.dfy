/**
 * What the output report promises, stated on `Encode` and proved from the
 * two offset tables: framing, the error case, which bytes carry what, the
 * bytes no field touches, the one-shot Bluetooth flag and the checksum
 * trailer.
 */
module ReportProperties {
  import opened Bits
  import opened Wrappers
  import opened Enums
  import opened Trigger
  import opened ForceFeedback
  import opened OutputState

  /** The failure happens exactly when the player count is outside 1 to 4. */
  lemma EncodeFailsIff(c: OutputCommand, t: ConnectionType, first: bool, compute: seq<int> -> u32)
    requires WellFormed(c)
    ensures Encode(c, t, first, compute).Failure? <==> !(1 <= c.playerLed.playerCount <= 4)
    ensures Encode(c, t, first, compute).Failure? ==>
      Encode(c, t, first, compute) == Failure(PlayerCountOutOfRange)
  {
  }

  /** A freshly built output state, with no player chosen, cannot be encoded. */
  lemma DefaultCommandFails(t: ConnectionType, first: bool, compute: seq<int> -> u32)
    ensures WellFormed(OutputCommand(0, 0, false, false, DefaultEffect, DefaultEffect, Rgb(0, 0, 0), DefaultPlayerLed))
    ensures Encode(OutputCommand(0, 0, false, false, DefaultEffect, DefaultEffect, Rgb(0, 0, 0), DefaultPlayerLed),
      t, first, compute) == Failure(PlayerCountOutOfRange)
  {
  }

  /** Length, report type and the flag bytes of both transports. */
  lemma Framing(c: OutputCommand, t: ConnectionType, first: bool, compute: seq<int> -> u32)
    requires WellFormed(c) && Encode(c, t, first, compute).Success?
    ensures var r := Encode(c, t, first, compute).value;
      |r| == (if t == USB then 64 else 78) &&
      r[0] == (if t == USB then 0x02 else 0x31) &&
      (t == USB ==> r[1] == 0xFF && r[2] == 0x57) &&
      (t == BT ==> r[1] == 0x02 && r[2] == 0xFF && r[3] == (if first then 0x5F else 0x57))
  {
  }

  /** Every byte the USB layout does not assign is zero. */
  lemma UsbUnassignedZero(c: OutputCommand, compute: seq<int> -> u32)
    requires WellFormed(c) && Encode(c, USB, false, compute).Success?
    ensures var r := Encode(c, USB, false, compute).value;
      forall k :: 0 <= k < 64 && !UsbAssigned(k) ==> r[k] == 0
  {
  }

  /** Every byte the Bluetooth layout does not assign is zero. */
  lemma BtUnassignedZero(c: OutputCommand, first: bool, compute: seq<int> -> u32)
    requires WellFormed(c) && Encode(c, BT, first, compute).Success?
    ensures var r := Encode(c, BT, first, compute).value;
      forall k :: 0 <= k < 78 && !BtAssigned(k) ==> r[k] == 0
  {
    var id := PlayerId(c.playerLed).value;
    var r := Encode(c, BT, first, compute).value;
    forall k | 0 <= k < 78 && !BtAssigned(k)
      ensures r[k] == 0
    {
      assert r[k] == BtBody(c, id, first)[k];
    }
  }

  /**
   * On USB the blocks of the right and left triggers start at the offsets
   * the effect generators name for R2 and L2, and carry the mode and all
   * ten forces.
   */
  lemma UsbTriggerBlocks(c: OutputCommand, compute: seq<int> -> u32)
    requires WellFormed(c) && Encode(c, USB, false, compute).Success?
    ensures var r := Encode(c, USB, false, compute).value;
      r[ButtonR2] == c.triggerR.mode && r[ButtonL2] == c.triggerL.mode &&
      (forall i :: 0 <= i < 10 ==> r[ButtonR2 + 1 + i] == c.triggerR.forces[i]) &&
      (forall i :: 0 <= i < 10 ==> r[ButtonL2 + 1 + i] == c.triggerL.forces[i])
  {
  }

  /**
   * On Bluetooth each trigger block carries the mode and forces 0 to 5,
   * then two zero bytes, then force 6; forces 7 to 9 are not sent.
   */
  lemma BtTriggerBlocks(c: OutputCommand, first: bool, compute: seq<int> -> u32)
    requires WellFormed(c) && Encode(c, BT, first, compute).Success?
    ensures var r := Encode(c, BT, first, compute).value;
      r[12] == c.triggerR.mode && r[23] == c.triggerL.mode &&
      (forall i :: 0 <= i < 6 ==> r[13 + i] == c.triggerR.forces[i]) &&
      (forall i :: 0 <= i < 6 ==> r[24 + i] == c.triggerL.forces[i]) &&
      r[21] == c.triggerR.forces[6] && r[32] == c.triggerL.forces[6] &&
      r[19] == 0 && r[20] == 0 && r[30] == 0 && r[31] == 0
  {
    var id := PlayerId(c.playerLed).value;
    var r := Encode(c, BT, first, compute).value;
    assert r[..TrailerStart] == BtBody(c, id, first)[..TrailerStart];
  }

  /**
   * The motor, microphone and LED bytes: motors as given, the mic LED as 1
   * or 0, the mute byte 0x10 or 0x00, and the player LED fields.
   */
  lemma UsbFields(c: OutputCommand, compute: seq<int> -> u32)
    requires WellFormed(c) && Encode(c, USB, false, compute).Success?
    ensures var r := Encode(c, USB, false, compute).value;
      r[3] == c.rightMotor && r[4] == c.leftMotor &&
      r[9] == (if c.microphoneLed then 1 else 0) &&
      r[10] == (if c.microphoneMute then 0x10 else 0x00) &&
      r[39] == LedPlayerLedBrightness && r[42] == PulseOff &&
      r[43] == Brightness(c.playerLed) && r[44] == PlayerId(c.playerLed).value &&
      r[45] == c.rgbLed.red && r[46] == c.rgbLed.green && r[47] == c.rgbLed.blue
  {
  }

  /**
   * Bluetooth carries the motor and microphone block and the LED block of
   * the USB layout one byte later.
   */
  lemma BtShiftsUsbBlocks(c: OutputCommand, first: bool, compute: seq<int> -> u32)
    requires WellFormed(c) && Encode(c, BT, first, compute).Success?
    ensures var u := Encode(c, USB, first, compute).value;
      var b := Encode(c, BT, first, compute).value;
      (forall k :: 3 <= k < 11 ==> b[k + 1] == u[k]) &&
      (forall k :: 39 <= k < 48 ==> b[k + 1] == u[k])
  {
    var id := PlayerId(c.playerLed).value;
    var b := Encode(c, BT, first, compute).value;
    assert b[..TrailerStart] == BtBody(c, id, first)[..TrailerStart];
  }

  /**
   * The session flag changes byte 3 only: 0x5F on the first report, 0x57
   * afterwards (before the checksum, which covers it).
   */
  lemma FirstReportFlag(c: OutputCommand, id: int)
    requires WellFormed(c)
    ensures BtBody(c, id, true)[3] == LedFlagsFirst && BtBody(c, id, false)[3] == LedFlags
    ensures forall k :: 0 <= k < 78 && k != 3 ==> BtBody(c, id, true)[k] == BtBody(c, id, false)[k]
  {
  }

  /**
   * The checksum is computed over the report with the trailer still zero,
   * and the trailer bytes read back, little-endian, as that checksum.
   */
  lemma BtTrailer(c: OutputCommand, first: bool, compute: seq<int> -> u32)
    requires WellFormed(c) && Encode(c, BT, first, compute).Success?
    ensures var r := Encode(c, BT, first, compute).value;
      LeValue(r[TrailerStart..]) == compute(r[..TrailerStart] + [0, 0, 0, 0])
  {
    var id := PlayerId(c.playerLed).value;
    var body := BtBody(c, id, first);
    var r := Encode(c, BT, first, compute).value;
    assert body[TrailerStart..] == [0, 0, 0, 0];
    assert body == body[..TrailerStart] + body[TrailerStart..];
    assert r[..TrailerStart] == body[..TrailerStart];
    assert r[TrailerStart..] == LeBytes(compute(body), 4);
    Pow2Values();
    LeValueOfLeBytes(compute(body), 4);
  }
}
