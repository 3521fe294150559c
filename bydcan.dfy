/**
 * Outbound BYD CAN messages: the four signal-table builders and the
 * nibble-sum checksum that the frame packer applies to a serialized payload.
 *
 * The builders return the message name, the bus and the table of signal
 * values handed to the packer; the packer itself (layout, serialization) is
 * not part of this model.  Python's `&` on possibly negative integers is
 * Euclidean `%` here and `<< 4` is `* 16`.
 */
module BydCan {

  // ---------------------------------------------------------------------
  // Signal tables
  // ---------------------------------------------------------------------

  /** A value placed in a signal table: Python booleans, integers and floats. */
  datatype SignalValue = Bool(b: bool) | Int(i: int) | Real(r: real)

  /** The DBC signals written by the builders, spelled as in the message database. */
  datatype Signal =
    // STEERING_MODULE_ADAS
    | STEER_REQ | STEER_ANGLE | SET_ME_XE | SET_ME_FF | SET_ME_F | SET_ME_1_1 | SET_ME_1_2
    | SET_ME_X01 | EPS_OK | UNKNOWN
    // ACC_CMD
    | ACCEL_CMD | SET_ME_25_1 | SET_ME_25_2 | ACC_ON_1 | ACC_ON_2 | ACCEL_FACTOR | DECEL_FACTOR
    | SET_ME_X8 | SET_ME_1 | SET_ME_XF | CMD_REQ_ACTIVE_LOW | ACC_REQ_NOT_STANDSTILL
    | ACC_CONTROLLABLE_AND_ON | ACC_OVERRIDE_OR_STANDSTILL | STANDSTILL_STATE | STANDSTILL_RESUME
    // LKAS_HUD_ADAS
    | SETTINGS | TSR | HAND_ON_WHEEL_WARNING | LKAS_ENABLED | STEER_ACTIVE_ACTIVE_LOW
    | LEFT_LANE_VISIBLE | RIGHT_LANE_VISIBLE | LSS_STATE | HMA | PT2 | PT3 | PT4 | PT5
    | TSR_STATUS | SET_ME_XFF
    // PCM_BUTTONS
    | SET_BTN | RES_BTN
    // shared by every sequenced message
    | COUNTER | CHECKSUM

  /** What `packer.make_can_msg` is given: message name, bus and signal table. */
  datatype CanMsg = CanMsg(name: string, bus: nat, values: map<Signal, SignalValue>)

  /** The 4-bit rolling counter, `counter & 0xF`. */
  function CounterField(counter: int): (c: int)
    ensures 0 <= c < 16
    ensures (c - counter) % 16 == 0
  {
    counter % 16
  }

  /** `m` carries a 4-bit COUNTER congruent to `counter` and a zero CHECKSUM placeholder. */
  predicate Sequenced(m: CanMsg, counter: int)
  {
    && COUNTER in m.values && m.values[COUNTER].Int?
    && 0 <= m.values[COUNTER].i < 16
    && (m.values[COUNTER].i - counter) % 16 == 0
    && CHECKSUM in m.values && m.values[CHECKSUM] == Int(0)
  }

  /** `STEERING_MODULE_ADAS` on bus 0: the steering-angle command. */
  function CreateCanSteerCommand(steerAngle: real, steerReq: bool, isStandstill: bool, counter: int): (m: CanMsg)
    ensures m.name == "STEERING_MODULE_ADAS" && m.bus == 0
    ensures Sequenced(m, counter)
    ensures STEER_REQ in m.values && m.values[STEER_REQ] == Bool(steerReq)
    ensures STEER_ANGLE in m.values && m.values[STEER_ANGLE] == Real(steerAngle)
    ensures SET_ME_XE in m.values && EPS_OK in m.values
    ensures m.values[SET_ME_XE] == Int(0) <==> !steerReq
    ensures steerReq && isStandstill ==> m.values[SET_ME_XE] == Int(0xE)
    ensures steerReq && !isStandstill ==> m.values[SET_ME_XE] == Int(0xB)
    ensures m.values[EPS_OK] in {Int(0), Int(1)}
    ensures m.values[EPS_OK] == Int(1) <==> steerReq
    ensures SET_ME_FF in m.values && m.values[SET_ME_FF] == Int(0xFF)
    ensures SET_ME_F in m.values && m.values[SET_ME_F] == Int(0xF)
    ensures UNKNOWN in m.values && m.values[UNKNOWN] == Int(0)
    ensures SET_ME_1_1 in m.values && SET_ME_1_2 in m.values && SET_ME_X01 in m.values
    ensures m.values[SET_ME_1_1] == m.values[SET_ME_1_2] == m.values[SET_ME_X01] == Int(1)
    ensures m.values.Keys == {STEER_REQ, STEER_ANGLE, SET_ME_XE, SET_ME_FF, SET_ME_F, SET_ME_1_1,
                              SET_ME_1_2, SET_ME_X01, EPS_OK, UNKNOWN, COUNTER, CHECKSUM}
  {
    var setMeXE := if isStandstill then 0xE else 0xB;
    var values := map[
      STEER_REQ := Bool(steerReq),
      STEER_ANGLE := Real(steerAngle),
      SET_ME_XE := Int(if steerReq then setMeXE else 0),
      SET_ME_FF := Int(0xFF),
      SET_ME_F := Int(0xF),
      SET_ME_1_1 := Int(1),
      SET_ME_1_2 := Int(1),
      SET_ME_X01 := Int(1),
      EPS_OK := Int(if steerReq then 1 else 0),
      UNKNOWN := Int(0),
      COUNTER := Int(CounterField(counter)),
      CHECKSUM := Int(0)
    ];
    CanMsg("STEERING_MODULE_ADAS", 0, values)
  }

  function Min(a: real, b: real): real { if a <= b then a else b }
  function Max(a: real, b: real): real { if a >= b then a else b }

  /** `max(min(accel * 13, 30), -50)`: the scaled acceleration request. */
  function ClampAccel(accel: real): (a: real)
    ensures -50.0 <= a <= 30.0
    ensures -50.0 <= accel * 13.0 <= 30.0 ==> a == accel * 13.0
    ensures accel * 13.0 > 30.0 ==> a == 30.0
    ensures accel * 13.0 < -50.0 ==> a == -50.0
  {
    Max(Min(accel * 13.0, 30.0), -50.0)
  }

  /** The empirically observed ACCEL_FACTOR level for a clamped request. */
  function AccelFactor(a: real): (f: int)
    ensures f in {12, 5, 11}
    ensures f == 12 <==> a >= 2.0
    ensures f == 5 <==> a < 0.0
  {
    if a >= 2.0 then 12 else if a < 0.0 then 5 else 11
  }

  /** `ACC_CMD` on bus 0: the longitudinal command; brake hold overrides an engaged request. */
  function CreateAccelCommand(accel: real, enabled: bool, brakeHold: bool, counter: int): (m: CanMsg)
    ensures m.name == "ACC_CMD" && m.bus == 0
    ensures Sequenced(m, counter)
    ensures ACCEL_CMD in m.values && m.values[ACCEL_CMD].Real?
    ensures -50.0 <= m.values[ACCEL_CMD].r <= 30.0
    ensures !brakeHold ==> m.values[ACCEL_CMD] == Real(ClampAccel(accel))
    ensures ACC_ON_1 in m.values && ACC_ON_2 in m.values
    ensures m.values[ACC_ON_1] == m.values[ACC_ON_2] == Bool(enabled && !brakeHold)
    ensures CMD_REQ_ACTIVE_LOW in m.values
    ensures m.values[CMD_REQ_ACTIVE_LOW] == Int(0) <==> enabled && !brakeHold
    ensures m.values[CMD_REQ_ACTIVE_LOW] in {Int(0), Int(1)}
    ensures STANDSTILL_STATE in m.values && m.values[STANDSTILL_STATE] == Bool(brakeHold)
    ensures ACC_OVERRIDE_OR_STANDSTILL in m.values && m.values[ACC_OVERRIDE_OR_STANDSTILL] == Bool(brakeHold)
    ensures brakeHold ==> m.values[ACCEL_CMD] == Real(0.0) && m.values[ACC_ON_1] == Bool(false)
    ensures brakeHold ==> m.values[CMD_REQ_ACTIVE_LOW] == Int(1)
    ensures ACCEL_FACTOR in m.values && DECEL_FACTOR in m.values
    ensures SET_ME_25_1 in m.values && SET_ME_25_2 in m.values && SET_ME_X8 in m.values
    ensures SET_ME_1 in m.values && SET_ME_XF in m.values
  {
    var clamped := ClampAccel(accel);
    var accelFactor := AccelFactor(clamped);
    var on := enabled && !brakeHold;
    var cmd := if brakeHold then 0.0 else clamped;
    var values := map[
      ACCEL_CMD := Real(cmd),
      SET_ME_25_1 := Int(25),
      SET_ME_25_2 := Int(25),
      ACC_ON_1 := Bool(on),
      ACC_ON_2 := Bool(on),
      ACCEL_FACTOR := Int(if on then accelFactor else 0),
      DECEL_FACTOR := Int(if on then 8 else 0),
      SET_ME_X8 := Int(8),
      SET_ME_1 := Int(1),
      SET_ME_XF := Int(0xF),
      CMD_REQ_ACTIVE_LOW := Int(if on then 0 else 1),
      ACC_REQ_NOT_STANDSTILL := Bool(on),
      ACC_CONTROLLABLE_AND_ON := Bool(on),
      ACC_OVERRIDE_OR_STANDSTILL := Bool(brakeHold),
      STANDSTILL_STATE := Bool(brakeHold),
      STANDSTILL_RESUME := Int(0),
      COUNTER := Int(CounterField(counter)),
      CHECKSUM := Int(0)
    ];
    CanMsg("ACC_CMD", 0, values)
  }

  /** ACCEL_FACTOR is 12, 5 or 11 by the clamped request while engaged and 0 otherwise; DECEL_FACTOR is 8 or 0. */
  lemma AccelCommandFactors(accel: real, enabled: bool, brakeHold: bool, counter: int)
    ensures var m := CreateAccelCommand(accel, enabled, brakeHold, counter);
      && (enabled && !brakeHold && ClampAccel(accel) >= 2.0 ==> m.values[ACCEL_FACTOR] == Int(12))
      && (enabled && !brakeHold && ClampAccel(accel) < 0.0 ==> m.values[ACCEL_FACTOR] == Int(5))
      && (enabled && !brakeHold && 0.0 <= ClampAccel(accel) < 2.0 ==> m.values[ACCEL_FACTOR] == Int(11))
      && (!(enabled && !brakeHold) ==> m.values[ACCEL_FACTOR] == Int(0))
      && m.values[DECEL_FACTOR] == (if enabled && !brakeHold then Int(8) else Int(0))
  {
  }

  /** The literal filler fields of ACC_CMD: 25, 25, 8, 1 and 0xF. */
  lemma AccelCommandFillers(accel: real, enabled: bool, brakeHold: bool, counter: int)
    ensures var m := CreateAccelCommand(accel, enabled, brakeHold, counter);
      && m.values[SET_ME_25_1] == Int(25) && m.values[SET_ME_25_2] == Int(25)
      && m.values[SET_ME_X8] == Int(8) && m.values[SET_ME_1] == Int(1) && m.values[SET_ME_XF] == Int(0xF)
      && m.values[STANDSTILL_RESUME] == Int(0)
  {
  }

  /** ACC_CMD carries exactly its eighteen signals; both request flags are set exactly when engaged without brake hold. */
  lemma AccelCommandSignals(accel: real, enabled: bool, brakeHold: bool, counter: int)
    ensures var m := CreateAccelCommand(accel, enabled, brakeHold, counter);
      m.values[ACC_REQ_NOT_STANDSTILL] == m.values[ACC_CONTROLLABLE_AND_ON] == Bool(enabled && !brakeHold)
    ensures CreateAccelCommand(accel, enabled, brakeHold, counter).values.Keys ==
      {ACCEL_CMD, SET_ME_25_1, SET_ME_25_2, ACC_ON_1, ACC_ON_2, ACCEL_FACTOR, DECEL_FACTOR,
       SET_ME_X8, SET_ME_1, SET_ME_XF, CMD_REQ_ACTIVE_LOW, ACC_REQ_NOT_STANDSTILL,
       ACC_CONTROLLABLE_AND_ON, ACC_OVERRIDE_OR_STANDSTILL, STANDSTILL_STATE, STANDSTILL_RESUME,
       COUNTER, CHECKSUM}
  {
  }

  /** `LKAS_HUD_ADAS` on bus 0: only the safety-relevant bits, visuals left at their defaults. */
  function CreateLkasHud(hudTsr: real, settings: real, enabled: bool, lkaOn: bool, counter: int): (m: CanMsg)
    ensures m.name == "LKAS_HUD_ADAS" && m.bus == 0
    ensures Sequenced(m, counter)
    ensures STEER_ACTIVE_ACTIVE_LOW in m.values
    ensures m.values[STEER_ACTIVE_ACTIVE_LOW] in {Int(0), Int(1)}
    ensures m.values[STEER_ACTIVE_ACTIVE_LOW] == Int(0) <==> enabled && lkaOn
    ensures LEFT_LANE_VISIBLE in m.values && RIGHT_LANE_VISIBLE in m.values
    ensures m.values[LEFT_LANE_VISIBLE] == m.values[RIGHT_LANE_VISIBLE] == Int(if enabled then 1 else 0)
    ensures LKAS_ENABLED in m.values && (m.values[LKAS_ENABLED] == Int(1) <==> lkaOn)
    ensures m.values[LKAS_ENABLED] in {Int(0), Int(1)}
    ensures SETTINGS in m.values && TSR in m.values
  {
    var steerActiveLow := if enabled && lkaOn then 0 else 1;
    var values := map[
      SETTINGS := Real(settings),
      TSR := Real(hudTsr),
      HAND_ON_WHEEL_WARNING := Int(0),
      LKAS_ENABLED := Int(if lkaOn then 1 else 0),
      STEER_ACTIVE_ACTIVE_LOW := Int(steerActiveLow),
      LEFT_LANE_VISIBLE := Int(if enabled then 1 else 0),
      RIGHT_LANE_VISIBLE := Int(if enabled then 1 else 0),
      LSS_STATE := Int(0),
      HMA := Int(0),
      PT2 := Int(0),
      PT3 := Int(0),
      PT4 := Int(0),
      PT5 := Int(0),
      TSR_STATUS := Int(0),
      SET_ME_XFF := Int(0xFF),
      SET_ME_1_2 := Int(1),
      COUNTER := Int(CounterField(counter)),
      CHECKSUM := Int(0)
    ];
    CanMsg("LKAS_HUD_ADAS", 0, values)
  }

  /**
   * The camera's SETTINGS and TSR values are echoed unchanged; the warning and
   * visual fields are 0 and the two fillers 0xFF and 1.
   */
  lemma LkasHudPassthrough(hudTsr: real, settings: real, enabled: bool, lkaOn: bool, counter: int)
    ensures var m := CreateLkasHud(hudTsr, settings, enabled, lkaOn, counter);
      && m.values[SETTINGS] == Real(settings) && m.values[TSR] == Real(hudTsr)
      && m.values[HAND_ON_WHEEL_WARNING] == Int(0) && m.values[LSS_STATE] == Int(0)
      && m.values[TSR_STATUS] == Int(0) && m.values[SET_ME_XFF] == Int(0xFF)
      && m.values[HMA] == Int(0) && m.values[PT2] == Int(0) && m.values[PT3] == Int(0)
      && m.values[PT4] == Int(0) && m.values[PT5] == Int(0) && m.values[SET_ME_1_2] == Int(1)
  {
  }

  /** LKAS_HUD_ADAS carries exactly its eighteen signals. */
  lemma LkasHudSignals(hudTsr: real, settings: real, enabled: bool, lkaOn: bool, counter: int)
    ensures CreateLkasHud(hudTsr, settings, enabled, lkaOn, counter).values.Keys ==
      {SETTINGS, TSR, HAND_ON_WHEEL_WARNING, LKAS_ENABLED, STEER_ACTIVE_ACTIVE_LOW,
       LEFT_LANE_VISIBLE, RIGHT_LANE_VISIBLE, LSS_STATE, HMA, PT2, PT3, PT4, PT5, TSR_STATUS,
       SET_ME_XFF, SET_ME_1_2, COUNTER, CHECKSUM}
  {
  }

  /** `PCM_BUTTONS` on bus 0: SET and RESUME pressed together; no counter, no checksum. */
  function SendButtons(state: bool): (m: CanMsg)
    ensures m.name == "PCM_BUTTONS" && m.bus == 0
    ensures m.values.Keys == {SET_BTN, RES_BTN, SET_ME_1_1, SET_ME_1_2}
    ensures m.values[SET_BTN] == m.values[RES_BTN] == Bool(state)
    ensures m.values[SET_ME_1_1] == m.values[SET_ME_1_2] == Int(1)
    ensures COUNTER !in m.values && CHECKSUM !in m.values
  {
    var values := map[
      SET_BTN := Bool(state),
      RES_BTN := Bool(state),
      SET_ME_1_1 := Int(1),
      SET_ME_1_2 := Int(1)
    ];
    CanMsg("PCM_BUTTONS", 0, values)
  }

  /** Counter masking: a counter of 0x1F is sent as 0xF, and the counter only matters modulo 16. */
  lemma CounterMasking(angle: real, req: bool, standstill: bool, counter: int)
    ensures CreateCanSteerCommand(angle, req, standstill, 0x1F).values[COUNTER] == Int(0xF)
    ensures CreateCanSteerCommand(angle, req, standstill, counter + 16)
         == CreateCanSteerCommand(angle, req, standstill, counter)
  {
  }

  /** Without a steering request the standstill flag has no influence on the steering frame. */
  lemma SteerIdleIgnoresStandstill(angle: real, counter: int)
    ensures CreateCanSteerCommand(angle, false, true, counter) == CreateCanSteerCommand(angle, false, false, counter)
  {
  }

  /** Clamp limits: 100 saturates at 30, -100 at -50. */
  lemma ClampBoundaries()
    ensures ClampAccel(100.0) == 30.0 && ClampAccel(-100.0) == -50.0
  {
  }

  /** Brake hold wins over an engaged request whatever the acceleration asked for. */
  lemma BrakeHoldOverrides(accel: real, counter: int)
    ensures CreateAccelCommand(accel, true, true, counter) == CreateAccelCommand(0.0, false, true, counter)
  {
  }

  // ---------------------------------------------------------------------
  // Checksum
  // ---------------------------------------------------------------------

  /** An element of a Python `bytearray`. */
  type Byte = b: int | 0 <= b < 256

  /** The checksum key mixed into both nibble sums. */
  const ByteKey: int := 0xAF

  datatype Half = High | Low

  /** The high (`b >> 4`) or low (`b & 0xF`) nibble of a byte. */
  function Nibble(b: Byte, h: Half): (n: nat)
    ensures n < 16
    ensures h == High ==> n * 16 <= b < n * 16 + 16
    ensures h == Low ==> (b - n) % 16 == 0
  {
    match h
    case High => b / 16
    case Low => b % 16
  }

  /** Sum of one nibble over `s`, accumulated left to right as the checksum loop does. */
  function NibbleSum(s: seq<Byte>, h: Half): (n: nat)
    ensures n <= 15 * |s|
  {
    if s == [] then 0 else NibbleSum(s[..|s| - 1], h) + Nibble(s[|s| - 1], h)
  }

  /** `d[:-1]`: every byte but the last, the checksum slot (empty for an empty payload). */
  function Summed(d: seq<Byte>): (s: seq<Byte>)
    ensures |d| > 0 ==> s + [d[|d| - 1]] == d
    ensures |d| == 0 ==> s == []
  {
    if |d| == 0 then [] else d[..|d| - 1]
  }

  /** The final mixing of the two nibble sums into one byte. */
  function ChecksumOfSums(sumFirst: nat, sumSecond: nat): (c: int)
    ensures 0 <= c < 256
  {
    var remainder := (sumSecond / 16) % 256;
    var first := sumFirst + ByteKey % 16;
    var second := sumSecond + ByteKey / 16;
    var invFirst := (-first + 0x9) % 16;
    var invSecond := (-second + 0x9) % 16;
    ((invFirst + (5 - remainder)) * 16 + invSecond) % 256
  }

  /** The checksum of a payload, as a function of the payload alone. */
  function Checksum(d: seq<Byte>): Byte
  {
    ChecksumOfSums(NibbleSum(Summed(d), High), NibbleSum(Summed(d), Low))
  }

  /**
   * `byd_checksum(address, sig, d)`: the loop over `d[:-1]` accumulating the
   * two nibble sums.  `address` and `sig` are accepted and never read.
   */
  method BydChecksum<Sig>(address: int, sig: Sig, d: seq<Byte>) returns (checksum: int)
    ensures 0 <= checksum < 256
    ensures checksum == Checksum(d)
  {
    var byteKey: int := 0xAF;
    var sumFirst: int := 0;
    var sumSecond: int := 0;
    var body := if |d| == 0 then [] else d[..|d| - 1];
    for i := 0 to |body|
      invariant sumFirst == NibbleSum(body[..i], High)
      invariant sumSecond == NibbleSum(body[..i], Low)
    {
      var b := body[i];
      assert body[..i + 1][..i] == body[..i];
      sumFirst := sumFirst + b / 16;
      sumSecond := sumSecond + b % 16;
    }
    assert body[..|body|] == body;
    var remainder := (sumSecond / 16) % 256;
    sumFirst := sumFirst + byteKey % 16;
    sumSecond := sumSecond + byteKey / 16;
    var invFirst := (-sumFirst + 0x9) % 16;
    var invSecond := (-sumSecond + 0x9) % 16;
    checksum := ((invFirst + (5 - remainder)) * 16 + invSecond) % 256;
  }

  /** The last byte (the checksum slot) never influences the checksum. */
  lemma ChecksumIgnoresLastByte(prefix: seq<Byte>, x: Byte, y: Byte)
    ensures Checksum(prefix + [x]) == Checksum(prefix + [y])
  {
    assert Summed(prefix + [x]) == prefix == Summed(prefix + [y]);
  }

  /** Dropping the byte at `k` removes exactly its nibble from the sum. */
  lemma {:induction false} NibbleSumRemove(s: seq<Byte>, k: nat, h: Half)
    requires k < |s|
    ensures NibbleSum(s, h) == NibbleSum(s[..k] + s[k + 1..], h) + Nibble(s[k], h)
  {
    var rest := s[..k] + s[k + 1..];
    if k == |s| - 1 {
      assert rest == s[..|s| - 1];
    } else {
      var init := s[..|s| - 1];
      NibbleSumRemove(init, k, h);
      assert rest[..|rest| - 1] == init[..k] + init[k + 1..];
      assert rest[|rest| - 1] == s[|s| - 1];
    }
  }

  /** Removing the element at `k` removes one occurrence of it from the multiset. */
  lemma MultisetRemove(t: seq<Byte>, k: nat)
    requires k < |t|
    ensures multiset(t[..k] + t[k + 1..]) == multiset(t) - multiset{t[k]}
  {
    assert t == t[..k] + [t[k]] + t[k + 1..];
  }

  /** Nibble sums depend only on the multiset of bytes summed. */
  lemma {:induction false} NibbleSumPermutation(s: seq<Byte>, t: seq<Byte>, h: Half)
    requires multiset(s) == multiset(t)
    ensures NibbleSum(s, h) == NibbleSum(t, h)
    decreases |s|
  {
    if s == [] {
      assert |t| == |multiset(t)| == 0;
    } else {
      var last := |s| - 1;
      var x := s[last];
      assert x in multiset(t) by {
        assert x in multiset(s);
      }
      var k :| 0 <= k < |t| && t[k] == x;
      MultisetRemove(s, last);
      MultisetRemove(t, k);
      assert s[..last] + s[last + 1..] == s[..last];
      NibbleSumPermutation(s[..last], t[..k] + t[k + 1..], h);
      NibbleSumRemove(t, k, h);
    }
  }

  /** Permuting the summed bytes (all but the last) leaves the checksum unchanged. */
  lemma ChecksumPermutationInvariant(d: seq<Byte>, e: seq<Byte>)
    requires multiset(Summed(d)) == multiset(Summed(e))
    ensures Checksum(d) == Checksum(e)
  {
    NibbleSumPermutation(Summed(d), Summed(e), High);
    NibbleSumPermutation(Summed(d), Summed(e), Low);
  }

  /** The nibble sums of an all-zero payload are zero. */
  lemma {:induction false} NibbleSumZeros(n: nat, h: Half)
    ensures NibbleSum(seq(n, _ => 0), h) == 0
  {
    if n > 0 {
      assert seq(n, _ => 0)[..n - 1] == seq(n - 1, _ => 0);
      NibbleSumZeros(n - 1, h);
    }
  }

  /** An all-zero payload of any length checksums to 0xFF (10 and 15 as the inverted nibbles). */
  lemma AllZeroChecksum(n: nat)
    ensures Checksum(seq(n, _ => 0)) == 0xFF
  {
    var d: seq<Byte> := seq(n, _ => 0);
    if n > 0 {
      assert Summed(d) == seq(n - 1, _ => 0);
      NibbleSumZeros(n - 1, High);
      NibbleSumZeros(n - 1, Low);
    }
  }
}
