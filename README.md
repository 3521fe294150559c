# BYD CAN interface — Dafny model

This project models the CAN-bus layer of opendbc's BYD port, in four modules:

- `BydCan` (`bydcan.dfy`) covers the outbound messages. It has the four signal-table builders for `STEERING_MODULE_ADAS`, `ACC_CMD`, `LKAS_HUD_ADAS` and `PCM_BUTTONS`, plus the nibble-sum checksum `byd_checksum`. A builder returns the message name, the bus and the signal table (`map<Signal, SignalValue>`) handed to the frame packer. The checksum is a method: its loop accumulates the high-nibble and low-nibble sums and is proved equal to the recursive `NibbleSum` function. Python's `&` on possibly negative integers is written as Euclidean `%`, and `<< 4` as `* 16`.
- `BydSafety` (`byd_safety.dfy`) covers the panda safety mode. `byd_rx_hook`, `byd_tx_hook` and `byd_init` act on the C globals `controls_allowed`, `gas_pressed`, `brake_pressed`, `vehicle_moving`, `byd_longitudinal` and `angle_meas`, which are the fields of the class `SafetyGlobals`. A frame's payload is the 64-byte buffer of `CANPacket_t`, as `bv8` values. `GET_BYTE`, `GET_BIT` and the wheel-speed fields use the same bit-vector operations as the C code. `GET_BYTES` returns the little-endian number its bytes spell, as an integer; that is what the C macro's OR of non-overlapping shifted bytes computes.
- `BydCarState` (`carstate.dfy`) covers `CarState`. `DecodeCarState` turns one snapshot of powertrain-bus and camera-bus signal values into the car-state record. `CarState.Update` also caches the camera HUD values, the EPS health signal and the last steering angle in the instance.
- `BydCarController` (`carcontroller.dfy`) covers `CarController`. The applied steering angle goes through the rate limiter on even frames only, and the frame counter advances on every update.

## Model

| member | source | states |
|---|---|---|
| BydCan.CounterField | opendbc/car/byd/bydcan.py:17 | `counter & 0xF` is in 0..15 and congruent to the counter modulo 16 |
| BydCan.CreateCanSteerCommand | opendbc/car/byd/bydcan.py:1-21 | STEERING_MODULE_ADAS on bus 0. The counter is masked to 4 bits and CHECKSUM is 0. STEER_REQ and STEER_ANGLE pass through. SET_ME_XE is 0 exactly when there is no steer request; with a request it is 0xE at standstill and 0xB otherwise. EPS_OK is 1 iff steer_req, else 0. The fillers SET_ME_FF, SET_ME_F and UNKNOWN are 0xFF, 0xF and 0, and SET_ME_1_1, SET_ME_1_2 and SET_ME_X01 are 1. The frame has exactly these twelve signals |
| BydCan.ClampAccel | opendbc/car/byd/bydcan.py:24 | the scaled request `accel*13` always lies in [-50, 30]. It is unchanged inside that range and saturates at the nearer bound outside it |
| BydCan.AccelFactor | opendbc/car/byd/bydcan.py:25 | the factor is 12 iff the clamped request is ≥ 2, 5 iff it is < 0, and 11 otherwise |
| BydCan.CreateAccelCommand | opendbc/car/byd/bydcan.py:23-55 | ACC_CMD on bus 0 with a masked counter and CHECKSUM 0. ACCEL_CMD is in [-50, 30]: the clamped request without brake hold, 0 with it. ACC_ON_1 and ACC_ON_2 both equal `enabled and not brake_hold`. CMD_REQ_ACTIVE_LOW is 0 iff that holds, else 1. STANDSTILL_STATE and ACC_OVERRIDE_OR_STANDSTILL equal brake_hold |
| BydCan.AccelCommandFactors | opendbc/car/byd/bydcan.py:25-41 | while effectively enabled, ACCEL_FACTOR is 12 / 5 / 11 according to the clamped request, and 0 otherwise. DECEL_FACTOR is 8 when enabled, else 0 |
| BydCan.AccelCommandSignals | opendbc/car/byd/bydcan.py:29-52 | ACC_REQ_NOT_STANDSTILL and ACC_CONTROLLABLE_AND_ON both equal `enabled and not brake_hold`. The frame has exactly its eighteen signals |
| BydCan.AccelCommandFillers | opendbc/car/byd/bydcan.py:33-50 | the constant fields are 25, 25, 8, 1 and 0xF, and STANDSTILL_RESUME is 0 |
| BydCan.BrakeHoldOverrides | opendbc/car/byd/bydcan.py:24-49 | with brake hold, an engaged request with any acceleration produces the same frame as a disengaged zero request |
| BydCan.ClampBoundaries | opendbc/car/byd/bydcan.py:24 | an acceleration of 100 is sent as 30, and -100 as -50 |
| BydCan.CreateLkasHud | opendbc/car/byd/bydcan.py:57-82 | LKAS_HUD_ADAS on bus 0 with a masked counter and CHECKSUM 0. STEER_ACTIVE_ACTIVE_LOW is 0 iff `enabled and lka_on`, else 1. Both lane-visible bits equal `enabled`. LKAS_ENABLED is 1 iff lka_on |
| BydCan.LkasHudPassthrough | opendbc/car/byd/bydcan.py:61-77 | SETTINGS and TSR are echoed unchanged. HAND_ON_WHEEL_WARNING, LSS_STATE, HMA, PT2 to PT5 and TSR_STATUS are 0. SET_ME_XFF is 0xFF and SET_ME_1_2 is 1 |
| BydCan.LkasHudSignals | opendbc/car/byd/bydcan.py:60-80 | the LKAS HUD frame has exactly its eighteen signals |
| BydCan.SendButtons | opendbc/car/byd/bydcan.py:84-91 | PCM_BUTTONS on bus 0 has exactly four signals. SET_BTN and RES_BTN both equal `state`, and both fillers are 1. There is no COUNTER and no CHECKSUM |
| BydCan.CounterMasking | opendbc/car/byd/bydcan.py:17 | a counter of 0x1F is sent as 0xF. Adding 16 to the counter leaves the frame unchanged |
| BydCan.SteerIdleIgnoresStandstill | opendbc/car/byd/bydcan.py:3-15 | without a steer request, the standstill flag does not change the steering frame |
| BydCan.Nibble | opendbc/car/byd/bydcan.py:104-105 | `b >> 4` is the quotient nibble of b (n*16 ≤ b < n*16+16). `b & 0xF` is congruent to b modulo 16. Both are < 16 |
| BydCan.NibbleSum | opendbc/car/byd/bydcan.py:103-105 | the accumulated nibble sum is at most 15 per byte |
| BydCan.Summed | opendbc/car/byd/bydcan.py:103 | `d[:-1]` is every byte but the last, so appending the last byte gives back d. It is empty for an empty payload |
| BydCan.ChecksumOfSums | opendbc/car/byd/bydcan.py:107-114 | the key mixing, the 4-bit inversions and the packing always give a value in 0..255 |
| BydCan.BydChecksum | opendbc/car/byd/bydcan.py:96-115 | the loop computes `Checksum(d)` (the nibble sums of `d[:-1]` mixed by ChecksumOfSums), which is in 0..255. `address` and `sig` are never read |
| BydCan.ChecksumIgnoresLastByte | opendbc/car/byd/bydcan.py:102-103 | the last byte, the checksum slot, never influences the checksum |
| BydCan.NibbleSumPermutation | opendbc/car/byd/bydcan.py:103-105 | a nibble sum depends only on the multiset of bytes summed |
| BydCan.ChecksumPermutationInvariant | opendbc/car/byd/bydcan.py:103-114 | two payloads whose bytes before the slot are permutations of each other have the same checksum. Empty payloads are included |
| BydCan.NibbleSumZeros | opendbc/car/byd/bydcan.py:99-105 | both nibble sums of an all-zero prefix are 0 |
| BydCan.AllZeroChecksum | opendbc/car/byd/bydcan.py:97-114 | an all-zero payload of any length checksums to 0xFF |
| BydSafety.GetBytes | opendbc/safety/modes/byd.h:13 | the value of `len` little-endian bytes is below 2^(8·len) |
| BydSafety.ToSigned | opendbc/safety/modes/byd.h:14 | for a `bits`-wide unsigned value, the result lies in [-2^(bits-1), 2^(bits-1)) and is congruent to the input modulo 2^bits |
| BydSafety.AngleRaw | opendbc/safety/modes/byd.h:13 | `GET_BYTES(msg, 0, 2) & 0xFFFF` is `byte0 + 256*byte1`; the mask is taken as the remainder modulo 2^16 |
| BydSafety.AngleMeasNew | opendbc/safety/modes/byd.h:13-14 | the new angle sample lies in [-32768, 32767] and is congruent modulo 2^16 to the little-endian word of bytes 0..1 |
| BydSafety.Field12 | opendbc/safety/modes/byd.h:26-27 | `((hi & 0xF) << 8) \| lo` is below 4096 and equals `(hi mod 16)*256 + lo` |
| BydSafety.WheelSpeedRaw | opendbc/safety/modes/byd.h:26-27 | a wheel-speed field is below 4096 and equals `(byte hi mod 16)*256 + byte lo` |
| BydSafety.FrontLeftMs | opendbc/safety/modes/byd.h:26 | fl_ms is `(byte1 mod 16)*256 + byte0` |
| BydSafety.BackRightMs | opendbc/safety/modes/byd.h:27 | br_ms is `(byte6 mod 16)*256 + byte5` |
| BydSafety.VehicleMovingFrom | opendbc/safety/modes/byd.h:26-28 | `vehicle_moving` holds iff fl_ms or br_ms is nonzero, that is, iff byte 0 or 5 is nonzero or byte 1 or 6 has a nonzero low nibble |
| BydSafety.GasPressedFrom | opendbc/safety/modes/byd.h:20 | gas is pressed iff byte 0 > 0 |
| BydSafety.BrakePressedFrom | opendbc/safety/modes/byd.h:21 | brake is pressed iff byte 1 > 0 |
| BydSafety.IccSteering | opendbc/safety/modes/byd.h:34-35 | ICC_STEERING_STATE is bit 1 of the payload (mask 0x02 of byte 0) |
| BydSafety.TxHook | opendbc/safety/modes/byd.h:41-45 | every frame may be transmitted |
| BydSafety.SafetyGlobals.constructor | opendbc/safety/modes/byd.h:4 | the globals start false, with no angle samples |
| BydSafety.SafetyGlobals.UpdateSample | opendbc/safety/modes/byd.h:15 | the new value becomes the newest angle sample |
| BydSafety.SafetyGlobals.RxHook | opendbc/safety/modes/byd.h:6-39 | on bus 0, address 287 records a new angle sample, and 834 sets gas_pressed and brake_pressed. Address 496 sets vehicle_moving and 508 sets controls_allowed, each from its payload field. Every other global is unchanged. A frame on another bus or at another address changes nothing |
| BydSafety.SafetyGlobals.Init | opendbc/safety/modes/byd.h:47-65 | controls_allowed and byd_longitudinal become false and the other globals are unchanged. It returns the TX list and the RX check list of this mode |
| BydSafety.TxMsgsExactly | opendbc/safety/modes/byd.h:52-55 | the TX list is exactly {(482, bus 0, len 8), (790, bus 0, len 8)} |
| BydSafety.RxChecksMatchHook | opendbc/safety/modes/byd.h:57-62 | the RX checks are all on bus 0 and cover exactly the four addresses the receive hook acts on |
| BydSafety.ControlsFollowIccBit | opendbc/safety/modes/byd.h:33-37 | a frame at 508 with bit 1 set turns controls on. A later frame with bit 1 clear turns them off again |
| BydCarState.TruncToInt | opendbc/car/byd/carstate.py:50 | Python `int()` truncates toward zero |
| BydCarState.Get | opendbc/car/byd/carstate.py:51 | `.get(code, None)` gives None exactly for an unmapped code and the table entry otherwise, and it never fails |
| BydCarState.DecodeCruise | opendbc/car/byd/carstate.py:78-90 | `available` is ACC_ON1 ∨ ACC_ON2. speedCluster is 0 when cruise is unavailable. Otherwise it is `max(int(SET_SPEED), 30)·KPH_TO_MS`, so it is at least 30·KPH_TO_MS. `speed·HUD_MULTIPLIER` equals speedCluster. `enabled` holds iff CMD_REQ_ACTIVE_LOW is 0 |
| BydCarState.DecodeCarState | opendbc/car/byd/carstate.py:28-104 | steerFaultTemporary holds iff EPS_OK is 0. vEgoRaw is the mean of the rear-left and front-left wheel speeds, and standstill holds iff vEgoRaw < 0.01. doorOpen is the OR of the four doors, and seatbeltUnlatched holds iff SEATBELT_DRIVER is 0. gasPressed means gas ≥ 0.01, brakePressed means brake > 0.01, and steeringPressed means EPS torque > 6. vEgoCluster is vEgo·HUD_MULTIPLIER. The gear is None iff the code is unmapped. brake and the steering angle and EPS torque are copied from their signals. stockAeb, stockFcw and espDisabled are false, and the cruise fields come from DecodeCruise. The blind-spot fields stay false unless enableBsm; with it they follow LEFT_APPROACH and RIGHT_APPROACH |
| BydCarState.DecodedStalksAndFilter | opendbc/car/byd/carstate.py:37-95 | the right-hand wheel speeds are the FR and BR signals in m/s. (vEgo, aEgo) is the speed filter applied to vEgoRaw. A mapped gear code decodes to its table label. steeringTorque is MAIN_TORQUE, and the two blinkers and the generic toggle follow their stalk signals |
| BydCarState.CarState.constructor | opendbc/car/byd/carstate.py:12-23 | the cached fields start at 0, and the value tables and BSM flag are kept |
| BydCarState.CarState.Update | opendbc/car/byd/carstate.py:25-104 | it returns the decoded state. adas_settings_pt, hud_passthrough and lka_on become the camera's SETTINGS, TSR and LKAS_ENABLED. eps_ok becomes EPS_OK, and steerFaultTemporary holds iff eps_ok is 0. prev_angle becomes the decoded steering angle |
| BydCarState.GearLookupMissIsIsolated | opendbc/car/byd/carstate.py:50-51 | an unmapped gear code decodes to None and changes no other field of the state |
| BydCarState.CruiseSpeedFloor | opendbc/car/byd/carstate.py:81-82 | with cruise available and a set speed of 10, speedCluster is 30·KPH_TO_MS, not 10·KPH_TO_MS |
| BydCarState.StandstillInKph | opendbc/car/byd/carstate.py:38-47 | standstill holds iff the rear-left and front-left wheel signals sum to less than 0.072 km/h |
| BydCarController.CarController.constructor | opendbc/car/byd/carcontroller.py:15-17 | apply_angle and frame start at 0 |
| BydCarController.CarController.Update | opendbc/car/byd/carcontroller.py:19-31 | on an even frame apply_angle becomes `limiter(target, previous apply_angle, vEgo, measured angle, latActive, ANGLE_LIMITS)`. On an odd frame it is unchanged. frame increases by exactly 1. The returned actuators equal the input ones except steeringAngleDeg, which is the new apply_angle. can_sends is empty |
| BydCarController.FourFrames | opendbc/car/byd/carcontroller.py:23-25 | over four updates of a fresh controller, the angle is recomputed on frames 0 and 2 and held on frames 1 and 3 |
| BydCarController.AngleLimitTables | opendbc/car/byd/carcontroller.py:6-11 | ANGLE_LIMITS has a 220° ceiling and two three-point tables. Both tables fall with speed, and the rate-up values stay below the rate-down values |

## Left out

- The frame packer and parser are not modelled: `packer.make_can_msg`, `CANParser`, `CANDefine` and `get_can_parsers` (opendbc/car/byd/carstate.py:105-129). A builder returns the name, bus and signal table handed to the packer. The decoder reads each bus as a total (message, signal) → value lookup.
- opendbc/car/byd/fingerprints.py holds identification tables only and is not part of this model.
- `apply_std_steer_angle_limits` is an arbitrary function (`AngleLimiter`) given to the controller. Its limiting behaviour is not modelled.
- `update_speed_kf` is a parameter function from vEgoRaw to (vEgo, aEgo). The filter state it keeps between calls is not modelled.
- `parse_gear_shifter` is not part of this model. The state records the label the value table gives the raw gear code, or None for an unmapped code. None is what the source hands to `parse_gear_shifter`.
- `UPDATE_VEHICLE_SPEED` and its floating-point speed conversion (opendbc/safety/modes/byd.h:29) are not modelled.
- BydSafety.SafetyGlobals.UpdateSample: models `angle_meas` as an unbounded history, newest first. The fixed window of samples and the running min/max that `update_sample` keeps are not modelled.
- `BUILD_SAFETY_CFG` is not modelled. Init returns the two message lists themselves.
- Floating point: the 0.01 thresholds and all signal values are exact reals. `HUD_MULTIPLIER` is exactly 1.068 and `KPH_TO_MS` exactly 1/3.6. ACCEL_CMD is always a real, while Python may hold the int 30, -50 or 0 there; the numeric value is the same.
- `CarStateSP` (the second value `update` returns) is always empty in the source and is not modelled.
- Only the single `CarState.update` decoder exists, and it is the one modelled. The LKAS HUD frame sends `LKAS_ENABLED` and the lane bits from its inputs. The checksum is total, and an empty payload checksums like a one-byte payload. An unmapped gear code yields None for `parse_gear_shifter`.
- BydCan.CreateLkasHud: takes `enabled` and `lka_on` as booleans. A caller that passes the cached numeric LKAS_ENABLED value gets Python truthiness, which is `value != 0`.
- BydSafety.Field12: computes in 16 bits. The C code computes in `unsigned int` and stores the result in a `uint16_t`, and the value never exceeds 12 bits.
- BydSafety.GetBytes: returns the integer value of the bytes, not a `uint32_t` bit pattern. For up to four bytes the two are the same number. The byte-wise OR itself is not modelled.
