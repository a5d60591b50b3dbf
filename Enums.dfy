/**
 * The enumeration tables of the controller protocol: transports with their
 * report lengths and report-type tags, LED and brightness codes, player
 * indicator patterns, trigger mode tags and battery state codes.
 *
 * The Python source declares these as `IntFlag` classes; their members are
 * plain integers once written into a report, so they are integer constants
 * here, except the transport, which selects behaviour and is a datatype.
 */
module Enums {

  /** The two physical links to the controller. */
  datatype ConnectionType = BT | USB

  function OutReportLength(t: ConnectionType): nat
  {
    match t
    case BT => 78
    case USB => 64
  }

  function InReportLength(t: ConnectionType): nat
  {
    match t
    case BT => 78
    case USB => 64
  }

  /** The report-type tag written at offset 0 of every output report. */
  function ReportType(t: ConnectionType): int
  {
    match t
    case BT => 0x31
    case USB => 0x02
  }

  /** Both transports use one report length in each direction. */
  lemma ReportLengths(t: ConnectionType)
    ensures InReportLength(t) == OutReportLength(t)
    ensures OutReportLength(t) == (if t == BT then 78 else 64)
    ensures ReportType(t) == (if t == BT then 0x31 else 0x02)
  {
  }

  // LedOptions
  const LedOff := 0x0
  const LedPlayerLedBrightness := 0x1
  const LedUninterrumpableLed := 0x2
  const LedBoth := 0x3

  // PulseOptions
  const PulseOff := 0x0
  const PulseFadeBlue := 0x1
  const PulseFadeOut := 0x2

  // Brightness
  const BrightnessHigh := 0x0
  const BrightnessMedium := 0x1
  const BrightnessLow := 0x2

  /** Brightness codes grow as the LEDs dim, starting from 0 for the brightest. */
  lemma BrightnessOrder()
    ensures BrightnessHigh == 0 && BrightnessHigh < BrightnessMedium < BrightnessLow
  {
  }

  // PlayerID: the bit patterns of the five player indicator LEDs
  const Player1 := 4
  const Player2 := 10
  const Player3 := 21
  const Player4 := 27
  const PlayerAll := 31

  /** The four player patterns tell the players apart and none lights every LED. */
  lemma PlayerIdsDistinct()
    ensures |{Player1, Player2, Player3, Player4, PlayerAll}| == 5
  {
  }

  // TriggerModes
  const ModeOff := 0x0
  const ModeRigid := 0x1
  const ModePulse := 0x2
  const ModeRigidA := 0x21
  const ModeRigidB := 0x05
  const ModeRigidAB := 0x25
  const ModePulseA := 0x22
  const ModePulseB := 0x06
  const ModePulseAB := 0x26
  const ModeCalibration := 0xFC
  const ModeFfbOff := 0x05
  const ModeFfbFeedback := 0x21
  const ModeFfbWeapon := 0x25
  const ModeFfbVibration := 0x26
  const ModeFfbBow := 0x22
  const ModeFfbGalloping := 0x23
  const ModeFfbMachine := 0x27
  const ModeFfbSimpleFeedback := 0x01
  const ModeFfbSimpleWeapon := 0x02
  const ModeFfbSimpleVibration := 0x06
  const ModeFfbLimitedFeedback := 0x11
  const ModeFfbLimitedWeapon := 0x12

  /** The four modes the effect generators produce are distinct tags. */
  lemma GeneratorModesDistinct()
    ensures |{ModeFfbOff, ModeFfbFeedback, ModeFfbWeapon, ModeFfbVibration}| == 4
  {
  }

  /**
   * Four of the generator tags coincide with older mode values, so in the
   * `IntFlag` class they are aliases of those members, not new ones.
   */
  lemma GeneratorModesAreAliases()
    ensures ModeFfbOff == ModeRigidB && ModeFfbFeedback == ModeRigidA
    ensures ModeFfbWeapon == ModeRigidAB && ModeFfbVibration == ModePulseAB
  {
  }

  // BatteryState
  const BatteryDischarging := 0x0
  const BatteryCharging := 0x1
  const BatteryFull := 0x2
  const BatteryNotCharging := 0xB
  const BatteryError := 0xF
  const BatteryTempOrVoltageOutOfRange := 0xA
  const BatteryUnknown := 0x0

  /** "Unknown" is an alias of "discharging": code 0 decodes to one state. */
  lemma BatteryUnknownIsDischarging()
    ensures BatteryUnknown == BatteryDischarging
  {
  }
}
