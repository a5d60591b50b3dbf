/**
 * The output report: what the host sends to the controller each cycle.
 *
 * `DeviceOutputState` holds the motors, microphone LED and mute, both
 * adaptive triggers, the light bar colour and the player indicator;
 * `PrepareReport` lays them out at the fixed offsets of the chosen
 * transport. The Bluetooth layout is shifted by one byte, carries only
 * seven force parameters per trigger, announces the LED strip in its
 * flags on the first report of a session only, and ends with a 32-bit
 * checksum over the report.
 *
 * `UsbByte` and `BtByte` state the two layouts as offset tables; `Encode`
 * is the whole report as a value; `PrepareReport` is proved to build it.
 */
module OutputState {
  import opened Bits
  import opened Wrappers
  import opened Enums
  import opened Trigger
  import opened ForceFeedback

  // ----- the player indicator -----

  /** The player indicator below the touchpad: a brightness and a player count. */
  datatype PlayerLed = PlayerLed(brightness: real, playerCount: int)

  const DefaultPlayerLed := PlayerLed(0.0, 0)

  datatype LedError = PlayerCountOutOfRange

  /** The LED pattern for players 1 to 4; any other count is an error. */
  function PlayerId(p: PlayerLed): (r: Result<int, LedError>)
    ensures r.Success? <==> 1 <= p.playerCount <= 4
    ensures r.Success? ==> r.value in {Player1, Player2, Player3, Player4}
  {
    if p.playerCount == 1 then Success(Player1)
    else if p.playerCount == 2 then Success(Player2)
    else if p.playerCount == 3 then Success(Player3)
    else if p.playerCount == 4 then Success(Player4)
    else Failure(PlayerCountOutOfRange)
  }

  /** Different players get different patterns, and none of them lights all five LEDs. */
  lemma PlayerIdInjective(p: PlayerLed, q: PlayerLed)
    requires PlayerId(p).Success? && PlayerId(q).Success?
    ensures PlayerId(p) == PlayerId(q) <==> p.playerCount == q.playerCount
    ensures PlayerId(p).value != PlayerAll
  {
  }

  /** The LED option byte does not depend on the indicator's state. */
  function LedOption(p: PlayerLed): (r: int)
    ensures r == LedPlayerLedBrightness
  {
    LedPlayerLedBrightness
  }

  /** High above 0.5, medium above 0.2, low otherwise. */
  function Brightness(p: PlayerLed): (r: int)
    ensures r == BrightnessHigh <==> p.brightness > 0.5
    ensures r == BrightnessMedium <==> 0.2 < p.brightness <= 0.5
    ensures r == BrightnessLow <==> p.brightness <= 0.2
  {
    if p.brightness > 0.5 then BrightnessHigh
    else if p.brightness > 0.2 then BrightnessMedium
    else BrightnessLow
  }

  /** A brighter setting never gets a dimmer code (the codes count downwards). */
  lemma BrightnessMonotone(p: PlayerLed, q: PlayerLed)
    requires p.brightness <= q.brightness
    ensures Brightness(q) <= Brightness(p)
  {
  }

  /** The pulse option byte does not depend on the indicator's state. */
  function PulseOptions(p: PlayerLed): (r: int)
    ensures r == PulseOff
  {
    PulseOff
  }

  // ----- what a report carries -----

  /** The light bar colour, each channel already scaled to a byte value. */
  datatype Rgb = Rgb(red: int, green: int, blue: int)

  /** Everything `PrepareReport` reads, as one value. */
  datatype OutputCommand = OutputCommand(
    rightMotor: int, leftMotor: int,
    microphoneLed: bool, microphoneMute: bool,
    triggerR: TriggerEffect, triggerL: TriggerEffect,
    rgbLed: Rgb, playerLed: PlayerLed)

  /** Both triggers have their ten force parameters. */
  predicate WellFormed(c: OutputCommand)
  {
    |c.triggerR.forces| == 10 && |c.triggerL.forces| == 10
  }

  /** USB first flag byte: motors, both triggers, audio and microphone volume. */
  const UsbMotorFlags := 0xFF
  /** Mic LED, mute, LED strips, player LEDs, motor power: `0x1 | 0x2 | 0x4 | 0x10 | 0x40`. */
  const LedFlags := 0x57
  /** As `LedFlags`, plus `0x8`: the first Bluetooth report of a session. */
  const LedFlagsFirst := 0x5F
  /** The second byte of a Bluetooth output report. */
  const BtTag := 0x02

  lemma LedFlagsBits()
    ensures Or(Or(Or(Or(0x1, 0x2), 0x4), 0x10), 0x40) == LedFlags
  {
    Pow2Small();
    OrDisjoint(1, 1, 1);
    OrDisjoint(3, 1, 2);
    OrDisjoint(7, 1, 4);
    OrDisjoint(0x17, 1, 6);
  }

  lemma LedFlagsFirstBits()
    ensures Or(Or(Or(Or(Or(0x1, 0x2), 0x4), 0x8), 0x10), 0x40) == LedFlagsFirst
  {
    Pow2Small();
    OrDisjoint(1, 1, 1);
    OrDisjoint(3, 1, 2);
    OrDisjoint(7, 1, 3);
    OrDisjoint(15, 1, 4);
    OrDisjoint(31, 1, 6);
  }

  /** The first Bluetooth report differs from later ones in bit 3 only. */
  lemma LedFlagsFirstAddsStrip()
    ensures LedFlagsFirst == LedFlags + 0x8 && !BitSet(LedFlags, 3) && BitSet(LedFlagsFirst, 3)
  {
    Pow2Small();
  }

  /** A Python `bool` stored in a list becomes 1 or 0 in the report. */
  function BoolByte(b: bool): int
  {
    if b then 1 else 0
  }

  function MuteByte(mute: bool): (r: int)
    ensures r == 0x10 || r == 0x00
    ensures r == 0x10 <==> mute
  {
    if mute then 0x10 else 0x00
  }

  // ----- the two layouts -----

  /**
   * The motor and microphone block, eight bytes long, at offset 3 on USB
   * and 4 on Bluetooth: the two rumble motors, four audio bytes left zero,
   * the microphone LED and the mute byte.
   */
  function MotorMicByte(c: OutputCommand, i: int): int
  {
    if i == 0 then c.rightMotor
    else if i == 1 then c.leftMotor
    else if i == 6 then BoolByte(c.microphoneLed)
    else if i == 7 then MuteByte(c.microphoneMute)
    else 0
  }

  /** The eleven-byte USB trigger block: the mode, then all ten force parameters. */
  function UsbTriggerByte(e: TriggerEffect, i: int): int
    requires |e.forces| == 10 && 0 <= i < 11
  {
    if i == 0 then e.mode else e.forces[i - 1]
  }

  /**
   * The eleven-byte Bluetooth trigger block: the mode, force parameters 0
   * to 5, two zero bytes, force parameter 6, and a zero byte.
   */
  function BtTriggerByte(e: TriggerEffect, i: int): int
    requires |e.forces| == 10 && 0 <= i < 11
  {
    if i == 0 then e.mode
    else if i <= 6 then e.forces[i - 1]
    else if i == 9 then e.forces[6]
    else 0
  }

  /** The first five bytes of the LED block: option, two zero bytes, pulse, brightness. */
  function LedSettingsByte(p: PlayerLed, i: int): int
  {
    if i == 0 then LedOption(p)
    else if i == 3 then PulseOptions(p)
    else if i == 4 then Brightness(p)
    else 0
  }

  /**
   * The nine-byte LED block, at offset 39 on USB and 40 on Bluetooth: the
   * settings, the player pattern `id`, and the light bar colour.
   */
  function LedByte(p: PlayerLed, rgb: Rgb, id: int, i: int): int
  {
    if i < 5 then LedSettingsByte(p, i)
    else if i == 5 then id
    else if i == 6 then rgb.red
    else if i == 7 then rgb.green
    else if i == 8 then rgb.blue
    else 0
  }

  /** The offsets a USB report assigns. */
  predicate UsbAssigned(k: int)
  {
    0 <= k <= 4 || k == 9 || k == 10 || 11 <= k < 33 || k == 39 || 42 <= k < 48
  }

  /** The offsets a Bluetooth report assigns, trailer included. */
  predicate BtAssigned(k: int)
  {
    0 <= k <= 5 || k == 10 || k == 11 || 12 <= k < 19 || k == 21 || 23 <= k < 30 ||
    k == 32 || k == 40 || 43 <= k < 49 || 74 <= k < 78
  }

  /**
   * Byte `k` of a USB report, given the player LED pattern `id`; every
   * offset the layout does not assign is zero.
   */
  function UsbByte(c: OutputCommand, id: int, k: int): (r: int)
    requires WellFormed(c)
    ensures !UsbAssigned(k) ==> r == 0
  {
    if k == 0 then ReportType(USB)
    else if k == 1 then UsbMotorFlags
    else if k == 2 then LedFlags
    else if 3 <= k < 11 then MotorMicByte(c, k - 3)
    else if ButtonR2 <= k < ButtonR2 + 11 then UsbTriggerByte(c.triggerR, k - ButtonR2)
    else if ButtonL2 <= k < ButtonL2 + 11 then UsbTriggerByte(c.triggerL, k - ButtonL2)
    else if 39 <= k < 48 then LedByte(c.playerLed, c.rgbLed, id, k - 39)
    else 0
  }

  /**
   * Byte `k` of a Bluetooth report before its checksum trailer; `first`
   * says whether this is the first report of the session. Every offset
   * the layout does not assign is zero.
   */
  function BtByte(c: OutputCommand, id: int, first: bool, k: int): (r: int)
    requires WellFormed(c)
    ensures !BtAssigned(k) ==> r == 0
  {
    if k == 0 then ReportType(BT)
    else if k == 1 then BtTag
    else if k == 2 then UsbMotorFlags
    else if k == 3 then (if first then LedFlagsFirst else LedFlags)
    else if 4 <= k < 12 then MotorMicByte(c, k - 4)
    else if 12 <= k < 23 then BtTriggerByte(c.triggerR, k - 12)
    else if 23 <= k < 34 then BtTriggerByte(c.triggerL, k - 23)
    else if 40 <= k < 49 then LedByte(c.playerLed, c.rgbLed, id, k - 40)
    else 0
  }

  function UsbReport(c: OutputCommand, id: int): (r: seq<int>)
    requires WellFormed(c)
    ensures |r| == OutReportLength(USB)
  {
    seq(64, k => UsbByte(c, id, k))
  }

  /** The Bluetooth report with its four trailer bytes still zero. */
  function BtBody(c: OutputCommand, id: int, first: bool): (r: seq<int>)
    requires WellFormed(c)
    ensures |r| == OutReportLength(BT)
  {
    seq(78, k => BtByte(c, id, first, k))
  }

  /** The checksum trailer starts here. */
  const TrailerStart := 74

  /**
   * The report for `c` on transport `t`, or the player-count error;
   * `compute` is the Bluetooth checksum function.
   */
  function Encode(c: OutputCommand, t: ConnectionType, first: bool, compute: seq<int> -> u32): (r: Result<seq<int>, LedError>)
    requires WellFormed(c)
    ensures r.Success? <==> PlayerId(c.playerLed).Success?
    ensures r.Success? ==> |r.value| == OutReportLength(t)
  {
    if t == USB then EncodeUsb(c) else EncodeBt(c, first, compute)
  }

  /** The USB report, or the player-count error. */
  function EncodeUsb(c: OutputCommand): (r: Result<seq<int>, LedError>)
    requires WellFormed(c)
    ensures r.Success? <==> PlayerId(c.playerLed).Success?
    ensures r.Failure? ==> r == Failure(PlayerCountOutOfRange)
    ensures r.Success? ==> |r.value| == OutReportLength(USB) && r.value[0] == ReportType(USB)
  {
    match PlayerId(c.playerLed)
    case Failure(e) => Failure(e)
    case Success(id) => Success(UsbReport(c, id))
  }

  /**
   * The body with its last four bytes replaced by the checksum of the body,
   * or the player-count error: the checksum changes nothing before the trailer.
   */
  function EncodeBt(c: OutputCommand, first: bool, compute: seq<int> -> u32): (r: Result<seq<int>, LedError>)
    requires WellFormed(c)
    ensures r.Success? <==> PlayerId(c.playerLed).Success?
    ensures r.Failure? ==> r == Failure(PlayerCountOutOfRange)
    ensures r.Success? ==> |r.value| == OutReportLength(BT) && r.value[0] == ReportType(BT)
    ensures r.Success? ==>
      r.value[..TrailerStart] == BtBody(c, PlayerId(c.playerLed).value, first)[..TrailerStart]
  {
    match PlayerId(c.playerLed)
    case Failure(e) => Failure(e)
    case Success(id) =>
      var body := BtBody(c, id, first);
      Success(body[..TrailerStart] + LeBytes(compute(body), 4))
  }

  // ----- building the report -----

  /** A sequence whose bytes match a table is the report the table describes. */
  lemma UsbReportFromBytes(c: OutputCommand, id: int, out: seq<int>)
    requires WellFormed(c) && |out| == 64
    requires forall k :: 0 <= k < 64 ==> out[k] == UsbByte(c, id, k)
    ensures out == UsbReport(c, id)
  {
    assert forall k :: 0 <= k < 64 ==> UsbReport(c, id)[k] == UsbByte(c, id, k);
  }

  lemma BtBodyFromBytes(c: OutputCommand, id: int, first: bool, out: seq<int>)
    requires WellFormed(c) && |out| == 78
    requires forall k :: 0 <= k < 78 ==> out[k] == BtByte(c, id, first, k)
    ensures out == BtBody(c, id, first)
  {
    assert forall k :: 0 <= k < 78 ==> BtBody(c, id, first)[k] == BtByte(c, id, first, k);
  }

  /** The bytes of `(crc & 0xFF, (crc & 0xFF00) >> 8, ...)` are the little-endian bytes of `crc`. */
  lemma TrailerBytes(crc: nat)
    ensures [And(crc, 0x0000_00FF), Shr(And(crc, 0x0000_FF00), 8),
             Shr(And(crc, 0x00FF_0000), 16), Shr(And(crc, 0xFF00_0000), 24)] == LeBytes(crc, 4)
  {
    Pow2Values();
    MaskedLeByte(crc, 4, 0);
    MaskedLeByte(crc, 4, 1);
    MaskedLeByte(crc, 4, 2);
    MaskedLeByte(crc, 4, 3);
  }

  /** Writing the four trailer bytes replaces the last four bytes by the checksum's. */
  lemma SpliceTrailer(body: seq<int>, crc: nat)
    requires |body| == 78
    ensures body[74 := And(crc, 0x0000_00FF)][75 := Shr(And(crc, 0x0000_FF00), 8)]
      [76 := Shr(And(crc, 0x00FF_0000), 16)][77 := Shr(And(crc, 0xFF00_0000), 24)]
      == body[..TrailerStart] + LeBytes(crc, 4)
  {
    TrailerBytes(crc);
  }

  /** Copies a trigger's mode and ten forces to `base .. base + 10` (USB). */
  method CopyUsbTrigger(out: seq<int>, base: nat, trigger: TriggerModel) returns (o: seq<int>)
    requires trigger.Valid() && base + 11 <= |out|
    ensures |o| == |out|
    ensures forall k :: 0 <= k < |out| ==>
      o[k] == (if base <= k < base + 11 then UsbTriggerByte(trigger.Effect(), k - base) else out[k])
  {
    o := out;
    o := o[base := trigger.mode];
    o := o[base + 1 := trigger.forces[0]];
    o := o[base + 2 := trigger.forces[1]];
    o := o[base + 3 := trigger.forces[2]];
    o := o[base + 4 := trigger.forces[3]];
    o := o[base + 5 := trigger.forces[4]];
    o := o[base + 6 := trigger.forces[5]];
    o := o[base + 7 := trigger.forces[6]];
    o := o[base + 8 := trigger.forces[7]];
    o := o[base + 9 := trigger.forces[8]];
    o := o[base + 10 := trigger.forces[9]];
  }

  /** Copies a trigger's mode and forces 0 to 6 into the Bluetooth block at `base`. */
  method CopyBtTrigger(out: seq<int>, base: nat, trigger: TriggerModel) returns (o: seq<int>)
    requires trigger.Valid() && base + 11 <= |out|
    requires forall k :: base <= k < base + 11 ==> out[k] == 0
    ensures |o| == |out|
    ensures forall k :: 0 <= k < |out| ==>
      o[k] == (if base <= k < base + 11 then BtTriggerByte(trigger.Effect(), k - base) else out[k])
  {
    o := out;
    o := o[base := trigger.mode];
    o := o[base + 1 := trigger.forces[0]];
    o := o[base + 2 := trigger.forces[1]];
    o := o[base + 3 := trigger.forces[2]];
    o := o[base + 4 := trigger.forces[3]];
    o := o[base + 5 := trigger.forces[4]];
    o := o[base + 6 := trigger.forces[5]];
    o := o[base + 9 := trigger.forces[6]];
  }

  // ----- the encoder -----

  class DeviceOutputState {
    var rightMotor: int
    var leftMotor: int
    var microphoneLed: bool
    var microphoneMute: bool
    var triggerR: TriggerModel
    var triggerL: TriggerModel
    var rgbLed: Rgb
    var playerLed: PlayerLed
    /** Set by the first Bluetooth report of the session and never cleared. */
    var btLedInitialized: bool

    predicate Valid()
      reads this, triggerR, triggerL
    {
      triggerR.Valid() && triggerL.Valid()
    }

    function Command(): OutputCommand
      reads this, triggerR, triggerL
    {
      OutputCommand(rightMotor, leftMotor, microphoneLed, microphoneMute,
        triggerR.Effect(), triggerL.Effect(), rgbLed, playerLed)
    }

    /** Everything off, both triggers in their default state, no player chosen. */
    constructor ()
      ensures Valid() && fresh(triggerR) && fresh(triggerL) && triggerR != triggerL
      ensures Command() == OutputCommand(0, 0, false, false, DefaultEffect, DefaultEffect,
        Rgb(0, 0, 0), DefaultPlayerLed)
      ensures !btLedInitialized
    {
      rightMotor, leftMotor := 0, 0;
      microphoneLed, microphoneMute := false, false;
      triggerR := new TriggerModel();
      triggerL := new TriggerModel();
      rgbLed := Rgb(0, 0, 0);
      playerLed := DefaultPlayerLed;
      btLedInitialized := false;
    }

    /** Writes the motor and microphone block at `base`. */
    method WriteMotorsAndMic(out: seq<int>, base: nat) returns (o: seq<int>)
      requires base + 8 <= |out|
      requires forall k :: base <= k < base + 8 ==> out[k] == 0
      ensures |o| == |out|
      ensures forall k :: 0 <= k < |out| ==>
        o[k] == (if base <= k < base + 8 then MotorMicByte(Command(), k - base) else out[k])
    {
      o := out;
      o := o[base := rightMotor];
      o := o[base + 1 := leftMotor];
      o := o[base + 6 := BoolByte(microphoneLed)];
      o := o[base + 7 := MuteByte(microphoneMute)];
    }

    /** Writes the LED option, pulse and brightness bytes of the LED block at `base`. */
    method WriteLedSettings(out: seq<int>, base: nat) returns (o: seq<int>)
      requires base + 5 <= |out|
      requires forall k :: base <= k < base + 5 ==> out[k] == 0
      ensures |o| == |out|
      ensures forall k :: 0 <= k < |out| ==>
        o[k] == (if base <= k < base + 5 then LedSettingsByte(playerLed, k - base) else out[k])
    {
      o := out;
      o := o[base := LedOption(playerLed)];
      o := o[base + 3 := PulseOptions(playerLed)];
      o := o[base + 4 := Brightness(playerLed)];
    }

    /** Writes the player pattern and the colour of the LED block at `base`. */
    method WritePlayerAndColour(out: seq<int>, base: nat, id: int) returns (o: seq<int>)
      requires base + 9 <= |out|
      ensures |o| == |out|
      ensures forall k :: 0 <= k < |out| ==>
        o[k] == (if base + 5 <= k < base + 9 then LedByte(playerLed, rgbLed, id, k - base) else out[k])
    {
      o := out;
      o := o[base + 5 := id];
      o := o[base + 6 := rgbLed.red];
      o := o[base + 7 := rgbLed.green];
      o := o[base + 8 := rgbLed.blue];
    }

    /**
     * The report for transport `t`. On Bluetooth the LED-strip flag is set
     * on the first report and the session flag is set whether or not the
     * player count then turns out invalid.
     */
    method PrepareReport(t: ConnectionType, compute: seq<int> -> u32) returns (r: Result<seq<int>, LedError>)
      requires Valid()
      modifies this`btLedInitialized
      ensures btLedInitialized == (old(btLedInitialized) || t == BT)
      ensures r == Encode(old(Command()), t, !old(btLedInitialized), compute)
    {
      var outReport := Zeros(OutReportLength(t));
      outReport := outReport[0 := ReportType(t)];

      if t == USB {
        r := FillUsbReport(outReport);
      } else {
        r := FillBtReport(outReport, compute);
      }
    }

    /** The USB branch of `PrepareReport`: it changes nothing but the report. */
    method FillUsbReport(outReport0: seq<int>) returns (r: Result<seq<int>, LedError>)
      requires Valid()
      requires outReport0 == Zeros(64)[0 := ReportType(USB)]
      ensures r == EncodeUsb(Command())
    {
      var outReport := outReport0;
      outReport := outReport[1 := UsbMotorFlags];
      outReport := outReport[2 := LedFlags];
      outReport := WriteMotorsAndMic(outReport, 3);
      outReport := CopyUsbTrigger(outReport, ButtonR2, triggerR);
      outReport := CopyUsbTrigger(outReport, ButtonL2, triggerL);
      outReport := WriteLedSettings(outReport, 39);
      var id := PlayerId(playerLed);
      if id.Failure? {
        return Failure(id.error);
      }
      outReport := WritePlayerAndColour(outReport, 39, id.value);
      UsbReportFromBytes(Command(), id.value, outReport);
      r := Success(outReport);
    }

    /** The Bluetooth branch of `PrepareReport`, with the session flag. */
    method FillBtReport(outReport0: seq<int>, compute: seq<int> -> u32) returns (r: Result<seq<int>, LedError>)
      requires Valid()
      requires outReport0 == Zeros(78)[0 := ReportType(BT)]
      modifies this`btLedInitialized
      ensures btLedInitialized
      ensures r == EncodeBt(old(Command()), !old(btLedInitialized), compute)
    {
      ghost var c := Command();
      ghost var first := !btLedInitialized;
      var outReport := outReport0;
      outReport := outReport[1 := BtTag];
      outReport := outReport[2 := UsbMotorFlags];
      if !btLedInitialized {
        outReport := outReport[3 := LedFlagsFirst];
        btLedInitialized := true;
      } else {
        outReport := outReport[3 := LedFlags];
      }
      assert Command() == c;
      outReport := WriteMotorsAndMic(outReport, 4);
      outReport := CopyBtTrigger(outReport, 12, triggerR);
      outReport := CopyBtTrigger(outReport, 23, triggerL);
      outReport := WriteLedSettings(outReport, 40);
      var id := PlayerId(playerLed);
      if id.Failure? {
        return Failure(id.error);
      }
      outReport := WritePlayerAndColour(outReport, 40, id.value);
      BtBodyFromBytes(c, id.value, first, outReport);

      var crcChecksum := compute(outReport);
      SpliceTrailer(outReport, crcChecksum);
      outReport := outReport[74 := And(crcChecksum, 0x0000_00FF)];
      outReport := outReport[75 := Shr(And(crcChecksum, 0x0000_FF00), 8)];
      outReport := outReport[76 := Shr(And(crcChecksum, 0x00FF_0000), 16)];
      outReport := outReport[77 := Shr(And(crcChecksum, 0xFF00_0000), 24)];
      r := Success(outReport);
    }
  }
}
