# pydualsense report codec in Dafny

A model of the part of pydualsense that turns Sony DualSense HID reports
into Python objects and back. It proves properties of the model.

- **Input decoder.** `InputState` decodes the controller's input report:
  - sticks, analog triggers and button bits;
  - the d-pad table;
  - two packed 12-bit touch points;
  - signed little-endian motion words;
  - the battery nibbles.

  The decoder is a class whose method overwrites its fields step by step.
  That method is proved to leave the object in the state given by the pure
  function `Decode`.
- **Trigger state.** `Trigger` holds a trigger's mode and ten force bytes, and
  `TriggerModel.SetForce` writes one of them.
- **Effect generators.** `ForceFeedback` models the four generators `ffb_off`,
  `ffb_feedback`, `ffb_weapon` and `ffb_vibration`, each as a method that
  follows its source body:
  - `FfbOff` only sets the mode;
  - `FfbFeedback` and `FfbVibration` run the zone-packing loop (`PackZones`)
    and then write the packed words into the force bytes;
  - `FfbWeapon` packs its two zones with shifts and `|` and makes three byte
    writes, with no loop.

  Each method is proved equal to a specification function. The byte layout
  promised for the generator parameters is proved about that function.
- **Output encoder.** `OutputState` models the output encoder
  `DeviceOutputState.prepareReport`:
  - the player-LED getters;
  - the USB and Bluetooth offset tables;
  - the one-shot "LED strip initialised" flag;
  - the 4-byte checksum trailer.

  The method fills a zero list by indexed writes, as the source does. It is
  proved equal to the pure function `Encode`. `ReportProperties` states what
  `Encode` promises: framing, the error case, block placement, zero padding,
  the effect of the flag, and the checksum round trip.
- **Enumeration tables.** `Enums` holds them, and `Bits` holds Python's `&`,
  `|`, `<<` and `>>` on non-negative integers, with the arithmetic facts the
  proofs use.

## Model

| member | source | states |
|---|---|---|
| Enums.ReportLengths | pydualsense/enums.py:8-29 | the output length is 78 on Bluetooth and 64 on USB, the input length equals the output length on each transport, and the report-type tag is 0x31 on Bluetooth and 0x02 on USB |
| Enums.BrightnessOrder | pydualsense/enums.py:45-48 | brightness codes are high 0 < medium 1 < low 2 |
| Enums.PlayerIdsDistinct | pydualsense/enums.py:51-56 | the four player patterns 4, 10, 21, 27 and ALL 31 are five distinct values |
| Enums.GeneratorModesDistinct | pydualsense/enums.py:71-74 | the generator tags FFB_Off 0x05, FFB_Feedback 0x21, FFB_Weapon 0x25 and FFB_Vibration 0x26 are pairwise distinct |
| Enums.GeneratorModesAreAliases | pydualsense/enums.py:63-74 | those four tags coincide with Rigid_B, Rigid_A, Rigid_AB and Pulse_AB, so the IntFlag class makes them aliases |
| Enums.BatteryUnknownIsDischarging | pydualsense/enums.py:86-92 | UNKNOWN and DISCHARGING share code 0, so battery code 0 decodes to one state |
| InputState.DpadOf | pydualsense/models.py:46-80 | up and down are never both pressed, nor left and right; every code outside 0..7 releases all four directions |
| InputState.DpadDirections | pydualsense/models.py:46-80 | even codes press exactly one direction: 0 up, 2 right, 4 down, 6 left; odd codes exactly two: 1 up+right, 3 right+down, 5 down+left, 7 left+up |
| InputState.DpadModel.constructor | pydualsense/models.py:40-44 | a new d-pad has all four directions released |
| InputState.DpadModel.FromState | pydualsense/models.py:46-80 | after the if/elif chain the four fields equal the direction table `DpadOf(code)` |
| InputState.LowNibble | pydualsense/models.py:165 | `b & 0x0F` is `b mod 16`, the d-pad code |
| InputState.HighNibbleMask | pydualsense/models.py:206 | `b & 0xF0` clears the low nibble of a byte |
| InputState.HighNibble | pydualsense/models.py:206 | `(b & 0xF0) >> 4` is `b div 16`, the battery state code |
| InputState.LowSevenBits | pydualsense/models.py:183 | `b & 0x7F` is `b mod 128`, the touch id |
| InputState.HighBitClear | pydualsense/models.py:184 | `(b & 0x80) == 0` holds exactly when the byte is below 128 (the finger is down) |
| InputState.HighFlags | pydualsense/models.py:159-171 | the tests `b & (1 << k) != 0` for k = 7..4 read bits 7..4 of the byte |
| InputState.LowFlags | pydualsense/models.py:172-175 | the tests for k = 3..0 read bits 3..0 of the byte |
| InputState.Misc2Flags | pydualsense/models.py:178-180 | `1 << 0`, `0x02` and `0x04` read bits 0, 1 and 2 of byte 10 |
| InputState.Join | pydualsense/models.py:185-186 | `(y << k) \| x` with `x < 2^k` places `y` above `x` for k = 4 and k = 8 |
| InputState.TouchOf | pydualsense/models.py:183-192 | the touch id is below 128, and X and Y are both below 4096 |
| InputState.TouchBits | pydualsense/models.py:183-192 | the source's masks and shifts give exactly `TouchOf`: active iff bit 7 is clear, id = b & 0x7F, X = ((b2 & 0x0F) << 8) \| b1, Y = (b3 << 4) \| (b2 >> 4) |
| InputState.Int16Le | pydualsense/models.py:195-202 | a signed little-endian 16-bit value lies in -32768..32767 and is congruent to lo + 256·hi modulo 65536 |
| InputState.Int16Bytes | pydualsense/models.py:195-202 | every signed 16-bit value has a byte pair that decodes to it |
| InputState.Int16RoundTrip | pydualsense/models.py:195-202 | decoding a byte pair and re-encoding it gives back the pair, so decoding is injective |
| InputState.BatteryOf | pydualsense/models.py:205-207 | the state is below 16, the level lies in 5..100, and the level is 100 exactly when the low nibble is at least 10 |
| InputState.BatteryBits | pydualsense/models.py:205-207 | the masks, the shift and `min(low*10+5, 100)` give exactly `BatteryOf` |
| InputState.Decode | pydualsense/models.py:146-207 | the state one decoding pass produces: for every buffer of at least 54 bytes, the d-pad never presses opposite directions, both touch ids are below 128 and their coordinates below 4096, all six motion values are signed 16-bit, and the battery state is below 16 with the level in 5..100 |
| InputState.DecodeReadsOnlyFields | pydualsense/models.py:146-207 | decoding reads only offsets 1..53: buffers that agree there decode to the same state |
| InputState.NormalizedInput | pydualsense/pydualsense.py:137-143 | a Bluetooth report is decoded with its first byte dropped and a USB report as read; both leave at least the 54 bytes the decoder reads |
| InputState.DeviceInputState.constructor | pydualsense/models.py:114-144 | a new input state has every field at its default, with both sticks at the centre byte 127 (the source's 0.0) |
| InputState.DeviceInputState.FromState | pydualsense/models.py:146-207 | after decoding, every decoded field equals `Decode(state)` whatever the previous state, so decoding the same buffer again gives the same state; `mic` is not written |
| InputState.DeviceInputState.ReadControls | pydualsense/models.py:150-180 | bytes 1..10 set sticks, triggers and all buttons as `Decode` says |
| InputState.DeviceInputState.ReadFront | pydualsense/models.py:150-165 | bytes 1..8 set sticks, analog triggers, face buttons and the d-pad |
| InputState.DeviceInputState.ReadSticks | pydualsense/models.py:150-155 | stick positions come from bytes 1..4 and L2/R2 from bytes 5 and 6; the press flags are kept |
| InputState.DeviceInputState.ReadFaceButtons | pydualsense/models.py:158-165 | triangle, circle, cross and square are bits 7..4 of byte 8, and the d-pad holds the table entry of its low nibble |
| InputState.DeviceInputState.ReadMisc | pydualsense/models.py:167-180 | bytes 9 and 10 set the shoulder buttons, stick presses, options, share, PS, touchpad and mute buttons |
| InputState.DeviceInputState.ReadMiscHigh | pydualsense/models.py:168-171 | R3, L3, options and share are bits 7..4 of byte 9 |
| InputState.DeviceInputState.ReadMiscLow | pydualsense/models.py:172-175 | the right and left stick presses, R1 and L1 are bits 3..0 of byte 9; the stick positions are kept |
| InputState.DeviceInputState.ReadMisc2 | pydualsense/models.py:177-180 | PS, touchpad click and mute button are bits 0..2 of byte 10 |
| InputState.DeviceInputState.ReadSensors | pydualsense/models.py:183-207 | touch points, motion vectors and battery are set from bytes 33..40, 16..27 and 53 |
| InputState.DeviceInputState.ReadTouchpad | pydualsense/models.py:183-192 | the two touch points are `TouchOf` bytes 33..36 and 37..40 |
| InputState.DeviceInputState.ReadMotion | pydualsense/models.py:195-202 | the gyroscope comes from bytes 16..21 and the accelerometer from bytes 22..27, as signed little-endian words |
| InputState.DeviceInputState.ReadBattery | pydualsense/models.py:205-207 | the battery is `BatteryOf` byte 53 |
| Bits.Shl | pydualsense/force_feedback.py:31-32 | Python's `x << k` on non-negative integers: shifting the result back by `k` recovers `x` |
| Bits.Shr | pydualsense/force_feedback.py:35-40 | Python's `x >> k` on non-negative integers: the quotient of `x` by `2^k` rounded down |
| Bits.And | pydualsense/models.py:159-186 | Python's `x & y` on non-negative integers, bit by bit: the result is at most either operand |
| Bits.Or | pydualsense/force_feedback.py:31-32 | Python's `x \| y` on non-negative integers, bit by bit: the result is at least either operand and at most their sum |
| Trigger.Zeros | pydualsense/models.py:85 | the default force list has the given length and holds only zeros |
| Trigger.TriggerModel.constructor | pydualsense/models.py:83-85 | a new trigger has mode Off and ten zero forces |
| Trigger.TriggerModel.SetForce | pydualsense/models.py:87-105 | the call succeeds exactly when 0 <= forceID <= 6; on success only `forces[forceID]` changes, and on failure nothing changes |
| ForceFeedback.Pow2Step3 | pydualsense/force_feedback.py:31 | each 3-bit slot is 8 times the previous one |
| ForceFeedback.ZoneFieldBound | pydualsense/force_feedback.py:30-31 | n slots of a 3-bit value fit in 3n bits |
| ForceFeedback.ZoneFieldTop | pydualsense/force_feedback.py:30-31 | one more loop round adds the value in the next slot |
| ForceFeedback.ZoneFieldSlot | pydualsense/force_feedback.py:30-31 | every one of the n slots of the packed field holds the value |
| ForceFeedback.PackZones | pydualsense/force_feedback.py:28-32 | the ten-round loop yields the packed force field and the mask 0x3FF of all ten zones |
| ForceFeedback.AllZonesBytes | pydualsense/force_feedback.py:35-36 | the mask of ten zones splits into the bytes 0xFF, 0x03 |
| ForceFeedback.FeedbackEffect | pydualsense/force_feedback.py:21-44 | there is an effect exactly when 0 <= position <= 9 and 1 <= strength <= 8 (rejects, never clamps); it has mode 0x21 and ten forces |
| ForceFeedback.FeedbackLayout | pydualsense/force_feedback.py:27-41 | forces 0 and 1 are 0xFF and 0x03; forces 2..5 read back little-endian as the 30-bit field with strength-1 in each slot; forces 6..9 are 0 |
| ForceFeedback.ZoneFieldFits | pydualsense/force_feedback.py:30-31 | the ten-slot field is below 2^30 |
| ForceFeedback.ZoneFieldSlots | pydualsense/force_feedback.py:30-31 | each of the ten 3-bit slots holds the value |
| ForceFeedback.FeedbackIgnoresPosition | pydualsense/force_feedback.py:22-32 | every valid position gives the same effect: position is only checked |
| ForceFeedback.WeaponEffect | pydualsense/force_feedback.py:47-68 | there is an effect exactly when 2 <= start <= 7, start < end <= 8 and 1 <= strength <= 8; it has mode 0x25 and ten forces |
| ForceFeedback.BitSetHalf | pydualsense/force_feedback.py:59 | bit k of x is bit k-1 of x div 2 |
| ForceFeedback.SingleBit | pydualsense/force_feedback.py:59 | `1 << e` has bit e set and no other bit |
| ForceFeedback.TwoBits | pydualsense/force_feedback.py:59 | `2^s + 2^e` with s < e has exactly bits s and e set |
| ForceFeedback.WeaponLayout | pydualsense/force_feedback.py:59-64 | forces 0 and 1 read back little-endian as the start/stop word, force 2 is strength-1 in 0..7, and forces 3..9 are 0 |
| ForceFeedback.WeaponWord | pydualsense/force_feedback.py:59-63 | the start/stop word survives the split into two bytes |
| ForceFeedback.WeaponWordFits | pydualsense/force_feedback.py:59 | the start/stop word fits in 16 bits |
| ForceFeedback.WeaponZoneBits | pydualsense/force_feedback.py:59 | among the 16 bits of the start/stop word exactly bits start and end are set |
| ForceFeedback.VibrationEffect | pydualsense/force_feedback.py:70-99 | there is an effect exactly when 0 <= position <= 9, 1 <= amplitude <= 8 and frequency >= 1, with no upper bound on frequency; it has mode 0x26 and ten forces |
| ForceFeedback.VibrationLayout | pydualsense/force_feedback.py:78-95 | the mask bytes are 0xFF and 0x03; forces 2..7 read back as the packed field of amplitude-1; forces 6 and 7 are 0; force 8 is the frequency unchanged; force 9 is 0 |
| ForceFeedback.ZoneFieldSixBytes | pydualsense/force_feedback.py:89-94 | the 30-bit field survives the split into six bytes, whose top two are 0 |
| ForceFeedback.TopByteZero | pydualsense/force_feedback.py:93-94 | bytes 4 and 5 of a value below 2^30 are 0 |
| ForceFeedback.VibrationIgnoresPosition | pydualsense/force_feedback.py:71-84 | every valid position gives the same effect |
| ForceFeedback.FfbOff | pydualsense/force_feedback.py:15-18 | the new trigger has mode 0x05 and ten zero forces |
| ForceFeedback.SpliceFeedback | pydualsense/force_feedback.py:35-40 | the six masked-shift writes into zero forces lay down the two mask bytes and four field bytes |
| ForceFeedback.FeedbackForces | pydualsense/force_feedback.py:34-41 | proof helper that unfolds `FeedbackEffect` at the generator's force list; it states no property of its own |
| ForceFeedback.FfbFeedback | pydualsense/force_feedback.py:21-44 | the generator's result has the effect `FeedbackEffect(position, strength)`, `None` included |
| ForceFeedback.TwoZones | pydualsense/force_feedback.py:59 | `(1 << s) \| (1 << e)` with s < e is the start/stop word |
| ForceFeedback.SpliceWeapon | pydualsense/force_feedback.py:62-64 | the three writes into zero forces lay down the word's two bytes and the strength |
| ForceFeedback.WeaponForces | pydualsense/force_feedback.py:61-64 | proof helper that unfolds `WeaponEffect` at the generator's force list; it states no property of its own |
| ForceFeedback.FfbWeapon | pydualsense/force_feedback.py:47-68 | the generator's result has the effect `WeaponEffect(start, end, strength)`, `None` included |
| ForceFeedback.LowThreeBits | pydualsense/force_feedback.py:78 | `(amplitude - 1) & 0x07` leaves a value below 8 unchanged |
| ForceFeedback.SpliceVibration | pydualsense/force_feedback.py:87-95 | the nine writes into zero forces lay down the mask bytes, six field bytes and the frequency |
| ForceFeedback.WriteVibration | pydualsense/force_feedback.py:87-95 | the nine writes into the default forces leave the two mask bytes, the six little-endian bytes of the amplitude field and the frequency, followed by a zero |
| ForceFeedback.VibrationForces | pydualsense/force_feedback.py:86-95 | proof helper that unfolds `VibrationEffect` at the generator's force list; it states no property of its own |
| ForceFeedback.FfbVibration | pydualsense/force_feedback.py:70-99 | the generator's result has the effect `VibrationEffect(position, amplitude, frequency)`, `None` included |
| OutputState.PlayerId | pydualsense/models.py:214-227 | success exactly for player counts 1..4, and the value is one of the patterns 4, 10, 21, 27; any other count, the default 0 included, is an error |
| OutputState.PlayerIdInjective | pydualsense/models.py:214-227 | distinct valid counts give distinct patterns, and none of them is ALL |
| OutputState.LedOption | pydualsense/models.py:229-230 | a constant getter, as in the source: `PlayerLedBrightness`, 1 (no property beyond the value) |
| OutputState.Brightness | pydualsense/models.py:232-239 | high 0 exactly above 0.5, medium 1 exactly in (0.2, 0.5], low 2 exactly at or below 0.2 |
| OutputState.BrightnessMonotone | pydualsense/models.py:232-239 | a brighter setting never gets a larger code |
| OutputState.PulseOptions | pydualsense/models.py:241-242 | a constant getter, as in the source: `Off`, 0 (no property beyond the value) |
| OutputState.LedFlagsBits | pydualsense/models.py:286 | `0x1 \| 0x2 \| 0x4 \| 0x10 \| 0x40` is 0x57 |
| OutputState.LedFlagsFirstBits | pydualsense/models.py:358 | `0x1 \| 0x2 \| 0x4 \| 0x8 \| 0x10 \| 0x40` is 0x5F |
| OutputState.LedFlagsFirstAddsStrip | pydualsense/models.py:357-361 | the first-report flags are the later ones plus bit 3, which the later ones lack |
| OutputState.MuteByte | pydualsense/models.py:296 | the mute byte is 0x10 or 0x00, and 0x10 exactly when muted |
| OutputState.UsbReport | pydualsense/models.py:259-329 | the USB table has 64 bytes |
| OutputState.BtBody | pydualsense/models.py:331-398 | the Bluetooth table has 78 bytes |
| OutputState.UsbByte | pydualsense/models.py:259-329 | the USB offset table: every offset the USB branch never assigns is 0 |
| OutputState.BtByte | pydualsense/models.py:331-398 | the Bluetooth offset table before the trailer: every offset the Bluetooth branch never assigns is 0 |
| OutputState.EncodeUsb | pydualsense/models.py:262-329 | success exactly when the player id does, otherwise the player-count error; on success 64 bytes starting with 0x02 |
| OutputState.EncodeBt | pydualsense/models.py:331-405 | success exactly when the player id does, otherwise the player-count error; on success 78 bytes starting with 0x31, identical to the body before offset 74, so the checksum replaces only the trailer |
| OutputState.Encode | pydualsense/models.py:258-407 | encoding succeeds exactly when the player id does, and then has the transport's output length |
| OutputState.UsbReportFromBytes | pydualsense/models.py:259-329 | a 64-byte list that agrees with the USB table at every offset is the USB report |
| OutputState.BtBodyFromBytes | pydualsense/models.py:331-398 | a 78-byte list that agrees with the Bluetooth table at every offset is its body |
| OutputState.TrailerBytes | pydualsense/models.py:402-405 | the four masked shifts of the checksum are its little-endian bytes |
| OutputState.SpliceTrailer | pydualsense/models.py:400-405 | writing those bytes at 74..77 replaces the zero tail by the little-endian checksum |
| OutputState.CopyUsbTrigger | pydualsense/models.py:299-321 | the USB trigger block holds the mode and then all ten forces; other bytes are kept |
| OutputState.CopyBtTrigger | pydualsense/models.py:374-390 | the Bluetooth trigger block holds the mode, forces 0..5, two zeros and force 6; other bytes are kept |
| OutputState.DeviceOutputState.constructor | pydualsense/models.py:245-256 | defaults: motors 0, mic LED off and unmuted, both triggers Off with zero forces, black LED, brightness 0 with player count 0, LED strip flag clear |
| OutputState.DeviceOutputState.WriteMotorsAndMic | pydualsense/models.py:288-296 | the motor and microphone block holds the right and left motors in its first two bytes and the mic LED as 1/0 and the mute byte in its seventh and eighth; the four bytes between stay 0 |
| OutputState.DeviceOutputState.WriteLedSettings | pydualsense/models.py:323-325 | the LED block holds the LED option, the pulse option and the brightness code |
| OutputState.DeviceOutputState.WritePlayerAndColour | pydualsense/models.py:326-329 | after the settings come the player pattern and the red, green and blue bytes |
| OutputState.DeviceOutputState.PrepareReport | pydualsense/models.py:258-407 | the result is `Encode` of the state before the call, with the first-report flag taken from the old session flag; the flag is set by every Bluetooth report and never cleared |
| OutputState.DeviceOutputState.FillUsbReport | pydualsense/models.py:262-329 | the filled USB list is the USB encoding of the current state, or the player-count error |
| OutputState.DeviceOutputState.FillBtReport | pydualsense/models.py:331-405 | the filled Bluetooth list is the Bluetooth encoding of the old state with the checksum trailer; the flag ends up set |
| ReportProperties.EncodeFailsIff | pydualsense/models.py:214-227 | the encoder fails exactly when the player count is outside 1..4, and the failure is the player-count error |
| ReportProperties.DefaultCommandFails | pydualsense/models.py:210-212 | a default output state cannot be encoded on either transport |
| ReportProperties.Framing | pydualsense/models.py:259-361 | length 64/78; byte 0 is 0x02/0x31; USB bytes 1..2 are 0xFF, 0x57; Bluetooth bytes 1..3 are 0x02, 0xFF and 0x5F on the first report, 0x57 afterwards |
| ReportProperties.UsbUnassignedZero | pydualsense/models.py:259-329 | every USB offset the encoder never writes is 0 |
| ReportProperties.BtUnassignedZero | pydualsense/models.py:331-405 | every Bluetooth offset the encoder never writes is 0 |
| ReportProperties.UsbTriggerBlocks | pydualsense/models.py:299-321 | USB puts the right mode and forces 0..9 at 11..21 and the left ones at 22..32 |
| ReportProperties.BtTriggerBlocks | pydualsense/models.py:374-390 | Bluetooth puts the modes at 12 and 23, forces 0..5 at 13..18 and 24..29, force 6 at 21 and 32, and leaves 19, 20, 30 and 31 at 0 |
| ReportProperties.UsbFields | pydualsense/models.py:288-329 | the USB motor, mic LED (1/0), mute (0x10/0x00), LED option, pulse, brightness, player and colour bytes |
| ReportProperties.BtShiftsUsbBlocks | pydualsense/models.py:363-398 | Bluetooth carries the USB motor/microphone block and LED block one byte later |
| ReportProperties.FirstReportFlag | pydualsense/models.py:357-361 | the session flag changes only byte 3 of the Bluetooth body, 0x5F vs 0x57 |
| ReportProperties.BtTrailer | pydualsense/models.py:400-405 | the checksum covers the 78 bytes with 74..77 still 0, and bytes 74..77 read back little-endian as that checksum |

## Left out

- **Floating point.** This covers:
  - stick scaling `(raw - 127) / 127.0`;
  - motion values divided by 8192.0;
  - `int(motor)` and `int(rgb * 255)`.

  The model stores the raw stick bytes and the signed 16-bit motion integers. Motor and colour values are taken as integers that are already scaled. Brightness thresholds are compared over reals.
- **Checksum.** The function `compute` (from `pydualsense.checksum`) is a parameter of type `seq<int> -> u32`. `pydualsense/checksum` is not part of this model.
- **Device I/O.** HID enumeration, the read/write thread, logging and the `bytes()` conversion before writing are left out. So is connection detection in `pydualsense/pydualsense.py`. Only the Bluetooth drop of the first input byte is kept, as `NormalizedInput`.
- **Pydantic machinery.** This covers field validation, `__eq__`, `__str__`, the `TypeError` raised for non-integer `setForce` arguments, and IntFlag pseudo-members. Because `ConnectionType` is a two-valued datatype, the fall-through of its methods cannot be reached: the two length methods would return 0 there, and `get_type` would raise `ValueError` (pydualsense/enums.py:29).
- **`DSTrigger`.** The force-feedback module imports it from a module that does not define it. It is modelled as `TriggerModel`: a mode plus ten forces that default to zero.
- **The `bt_led_initialized` flag.** The Bluetooth branch of the encoder reads `self.bt_led_initialized` (pydualsense/models.py:357), but `DeviceOutputState` never declares or sets it. The source only sets it on the `pydualsense` object (pydualsense/pydualsense.py:39). So, as written, every Bluetooth encode raises `AttributeError` at that line. The model follows the evidently intended behaviour: the flag is a field of `DeviceOutputState` that starts out false and is set after the first Bluetooth report.
- **Order of the Bluetooth flag and the error.** On a Bluetooth report whose player count is invalid, the flag is set before `get_player_id` raises. The model keeps this order: the result is the error and the flag is set.
- **Force-list length.** `Valid` and `WellFormed` require exactly ten forces. The source accepts other lengths:
  - fewer than 10 forces raise `IndexError` on USB, which reads forces 0..9;
  - fewer than 7 raise it on Bluetooth, which reads forces 0..6, so 7 to 9 entries encode there;
  - longer lists encode on both transports, with the extra entries ignored;
  - `setForce` on a list shorter than `forceID + 1` raises `IndexError`.

  The model covers only the ten-entry lists that every constructor and generator builds.
- **Report byte range.** Report bytes are not checked to be in 0..255. The source leaves that check to `bytes()` at write time.
- DeviceInputState.FromState (`InputState.DeviceInputState.FromState` and `InputState.Decode`): requires a buffer of at least 54 bytes. The source does not check the length. On a shorter buffer it overwrites fields in its order (bytes 1..10, then 33..40, then 16..27, then 53) until the first missing index raises `IndexError`, leaving the object partly updated. That error path and the partial update are not modelled. The caller reads the transport's input length (64 or 78 bytes), which `NormalizedInput` shows always leaves enough; a shorter read from the device is not modelled.
- **The `mic` field.** It is declared and never written. `touchBtn` and `micBtn` are decoded from byte 10 and are not connected to `mic`. The source assigns them (pydualsense/models.py:179-180) as attributes the model class never declares. Under pydantic's default configuration, assigning an undeclared field raises `ValueError`, so, as written, every decode raises at line 179. The model follows the evidently intended behaviour and holds them as ordinary fields.
- **Decoder structure.** The source decodes in one function. The model runs the same assignments, in the same order, as a sequence of helper methods, one per group of report bytes.
- **Encoder structure.** The source fills the report in one function. The model splits it into a per-transport method and per-block helpers that write the same offsets in the same order.
- **Generator parameters.** Out-of-range parameters make a generator return `None`; nothing is clamped. The position parameter is validated but never used: all ten zones are always active. The model follows the code.
