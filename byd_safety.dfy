/**
 * The BYD safety mode: the receive hook that keeps the safety globals in step
 * with what the car reports on bus 0, the transmit hook and the init hook.
 *
 * The C globals the hooks write are the fields of `SafetyGlobals`.  A
 * received frame is a `CanPacket` whose payload is the fixed 64-byte data
 * buffer of `CANPacket_t`; the byte accessors read it with the bit-vector
 * operations the C macros use.
 */
module BydSafety {

  /** The 64-byte payload buffer of a CAN packet. */
  type Payload = s: seq<bv8> | |s| == 64 witness seq(64, _ => 0)

  datatype CanPacket = CanPacket(bus: int, addr: int, data: Payload)

  // ---------------------------------------------------------------------
  // Byte accessors
  // ---------------------------------------------------------------------

  /** `GET_BYTE(msg, i)`. */
  function GetByte(p: CanPacket, i: nat): bv8
    requires i < 64
  {
    p.data[i]
  }

  /**
   * `GET_BYTES(msg, start, len)`: up to four bytes ORed together little-endian
   * into a `uint32_t`, byte `start + i` shifted left by `8 * i`.  The shifted
   * bytes do not overlap and four bytes fit the 32-bit result, so the OR is
   * the little-endian number they spell, which is what this returns.
   */
  function GetBytes(p: CanPacket, start: nat, len: nat): (r: nat)
    requires len <= 4 && start + len <= 64
    ensures r < Pow2(8 * len)
    decreases len
  {
    if len == 0 then 0
    else
      var rest := GetBytes(p, start + 1, len - 1);
      Pow2Byte(8 * (len - 1));
      p.data[start] as int + 256 * rest
  }

  /** `GET_BIT(msg, b)`: bit `b % 8` of byte `b / 8`. */
  function GetBit(p: CanPacket, b: nat): bool
    requires b < 8 * 64
  {
    ((p.data[b / 8] >> (b % 8)) & 1) == 1
  }

  function Pow2(n: nat): (r: nat)
    ensures r > 0
  {
    if n == 0 then 1 else 2 * Pow2(n - 1)
  }

  /** One more byte multiplies the range by 256. */
  lemma Pow2Byte(n: nat)
    ensures Pow2(n + 8) == 256 * Pow2(n)
  {
    assert Pow2(n + 8) == 4 * Pow2(n + 6);
    assert Pow2(n + 6) == 4 * Pow2(n + 4);
    assert Pow2(n + 4) == 4 * Pow2(n + 2);
  }

  lemma NegModSelf(n: int)
    requires n > 0
    ensures (-n) % n == 0 && 0 % n == 0
  {
    assert -n == (-1) * n;
  }

  /**
   * `to_signed(d, bits)`: values from 2^(bits-1) upwards wrap to negative.
   * An unsigned `bits`-wide value becomes the two's-complement value with
   * the same bits.
   */
  function ToSigned(d: int, bits: nat): (r: int)
    ensures bits >= 1 && 0 <= d < Pow2(bits) ==>
      -(Pow2(bits - 1) as int) <= r < Pow2(bits - 1) && (r - d) % Pow2(bits) == 0
  {
    var maxValue := Pow2(if bits >= 1 then bits - 1 else 0);
    var r := if d >= maxValue then d - Pow2(bits) else d;
    NegModSelf(Pow2(bits));
    assert bits >= 1 ==> Pow2(bits) == 2 * maxValue;
    assert r - d == 0 || r - d == -(Pow2(bits) as int);
    r
  }

  /**
   * `GET_BYTES(msg, 0, 2) & 0xFFFFU`: bytes 0 and 1, little-endian.  Masking
   * the low 16 bits of a non-negative value is taking it modulo 2^16.
   */
  function AngleRaw(p: CanPacket): (raw: int)
    ensures raw == p.data[0] as int + 256 * p.data[1] as int
  {
    GetBytes(p, 0, 2) % 65536
  }

  lemma Pow2Of16()
    ensures Pow2(15) == 32768 && Pow2(16) == 65536
  {
    assert Pow2(4) == 16;
    assert Pow2(8) == 256;
    assert Pow2(12) == 4096;
  }

  /** Address 287: bytes 0..1 reinterpreted as a signed 16-bit steering angle. */
  function AngleMeasNew(p: CanPacket): (angle: int)
    ensures -32768 <= angle <= 32767
    ensures (angle - (p.data[0] as int + 256 * p.data[1] as int)) % 65536 == 0
  {
    Pow2Of16();
    ToSigned(AngleRaw(p), 16)
  }

  lemma LowNibbleAsInt(x: bv8)
    ensures (x & 0xF) as int == x as int % 16
  {
  }

  lemma FieldAsInt(hi: bv8, lo: bv8)
    ensures (hi as bv16 * 256 + lo as bv16) as int == hi as int * 256 + lo as int
  {
  }

  /** The 12-bit field `((hi & 0xF) << 8) | lo` stored in a `uint16_t`. */
  function Field12(lo: bv8, hi: bv8): (ms: bv16)
    ensures ms < 4096
    ensures ms as int == (hi as int % 16) * 256 + lo as int
  {
    var ms := ((hi as bv16 & 0x000F) << 8) | (lo as bv16);
    assert ms == ((hi & 0xF) as bv16) * 256 + lo as bv16;
    LowNibbleAsInt(hi);
    FieldAsInt(hi & 0xF, lo);
    ms
  }

  /** Address 496: a 12-bit wheel-speed field, low nibble of byte `hi` above byte `lo`. */
  function WheelSpeedRaw(p: CanPacket, lo: nat, hi: nat): (ms: bv16)
    requires lo < 64 && hi < 64
    ensures ms < 4096
    ensures ms as int == (p.data[hi] as int % 16) * 256 + p.data[lo] as int
  {
    Field12(GetByte(p, lo), GetByte(p, hi))
  }

  /** `fl_ms`: bytes 0 and 1. */
  function FrontLeftMs(p: CanPacket): (ms: bv16)
    ensures ms as int == (p.data[1] as int % 16) * 256 + p.data[0] as int
  {
    WheelSpeedRaw(p, 0, 1)
  }

  /** `br_ms`: bytes 5 and 6. */
  function BackRightMs(p: CanPacket): (ms: bv16)
    ensures ms as int == (p.data[6] as int % 16) * 256 + p.data[5] as int
  {
    WheelSpeedRaw(p, 5, 6)
  }

  /** `(fl_ms | br_ms) != 0`: the car moves when either wheel reports a speed. */
  function VehicleMovingFrom(p: CanPacket): (moving: bool)
    ensures moving <==> FrontLeftMs(p) != 0 || BackRightMs(p) != 0
    ensures moving <==> p.data[0] != 0 || p.data[1] % 16 != 0 || p.data[5] != 0 || p.data[6] % 16 != 0
  {
    (FrontLeftMs(p) | BackRightMs(p)) != 0
  }

  /** Address 834, byte 0: the gas pedal is pressed when it is nonzero. */
  function GasPressedFrom(p: CanPacket): (pressed: bool)
    ensures pressed <==> p.data[0] as int > 0
  {
    GetByte(p, 0) > 0
  }

  /** Address 834, byte 1: the brake pedal is pressed when it is nonzero. */
  function BrakePressedFrom(p: CanPacket): (pressed: bool)
    ensures pressed <==> p.data[1] as int > 0
  {
    GetByte(p, 1) > 0
  }

  /** Address 508, bit 1: ICC_STEERING_STATE. */
  function IccSteering(p: CanPacket): (on: bool)
    ensures on <==> p.data[0] & 0x02 != 0
  {
    GetBit(p, 1)
  }

  /** The frames the receive hook acts on: bus 0 and one of four addresses. */
  predicate Handled(p: CanPacket)
  {
    p.bus == 0 && p.addr in {287, 834, 496, 508}
  }

  // ---------------------------------------------------------------------
  // Configuration
  // ---------------------------------------------------------------------

  /** A `CanMsg` entry of the transmit list. */
  datatype TxMsg = TxMsg(addr: int, bus: int, len: nat, checkRelay: bool)

  /** An `RxCheck` entry: the expected message and its timing. */
  datatype RxCheck = RxCheck(addr: int, bus: int, len: nat, ignoreChecksum: bool, ignoreCounter: bool,
                             ignoreQualityFlag: bool, frequency: nat)

  datatype SafetyConfig = SafetyConfig(rxChecks: seq<RxCheck>, txMsgs: seq<TxMsg>)

  const BydTxMsgs: seq<TxMsg> := [
    TxMsg(482, 0, 8, false),
    TxMsg(790, 0, 8, false)
  ]

  const BydRxChecks: seq<RxCheck> := [
    RxCheck(287, 0, 5, true, true, true, 100),
    RxCheck(496, 0, 8, true, true, true, 50),
    RxCheck(508, 0, 8, true, true, true, 20),
    RxCheck(834, 0, 8, true, true, true, 50)
  ]

  /** `byd_tx_hook`: every frame may be sent. */
  function TxHook(p: CanPacket): (allowed: bool)
    ensures allowed
  {
    true
  }

  // ---------------------------------------------------------------------
  // The safety globals and the hooks that write them
  // ---------------------------------------------------------------------

  class SafetyGlobals {
    var controlsAllowed: bool
    var gasPressed: bool
    var brakePressed: bool
    var vehicleMoving: bool
    var bydLongitudinal: bool
    /** The `angle_meas` samples, newest first. */
    var angleMeas: seq<int>

    /** Zero-initialised globals, as at program start. */
    constructor ()
      ensures !controlsAllowed && !gasPressed && !brakePressed && !vehicleMoving && !bydLongitudinal
      ensures angleMeas == []
    {
      controlsAllowed := false;
      gasPressed := false;
      brakePressed := false;
      vehicleMoving := false;
      bydLongitudinal := false;
      angleMeas := [];
    }

    /** `update_sample(&angle_meas, v)`: record `v` as the newest sample. */
    method UpdateSample(v: int)
      modifies this`angleMeas
      ensures angleMeas == [v] + old(angleMeas)
    {
      angleMeas := [v] + angleMeas;
    }

    /** `byd_rx_hook`: dispatch on bus and address and update the globals the frame reports. */
    method RxHook(p: CanPacket)
      modifies this
      ensures angleMeas == if p.bus == 0 && p.addr == 287 then [AngleMeasNew(p)] + old(angleMeas) else old(angleMeas)
      ensures gasPressed == if p.bus == 0 && p.addr == 834 then GasPressedFrom(p) else old(gasPressed)
      ensures brakePressed == if p.bus == 0 && p.addr == 834 then BrakePressedFrom(p) else old(brakePressed)
      ensures vehicleMoving == if p.bus == 0 && p.addr == 496 then VehicleMovingFrom(p) else old(vehicleMoving)
      ensures controlsAllowed == if p.bus == 0 && p.addr == 508 then IccSteering(p) else old(controlsAllowed)
      ensures bydLongitudinal == old(bydLongitudinal)
      ensures !Handled(p) ==> unchanged(this)
    {
      var bus := p.bus;
      var addr := p.addr;
      if bus == 0 {
        if addr == 287 {
          var angleMeasNew := GetBytes(p, 0, 2) % 65536;
          angleMeasNew := ToSigned(angleMeasNew, 16);
          UpdateSample(angleMeasNew);
        }
        if addr == 834 {
          gasPressed := GetByte(p, 0) > 0;
          brakePressed := GetByte(p, 1) > 0;
        }
        if addr == 496 {
          var flMs := WheelSpeedRaw(p, 0, 1);
          var brMs := WheelSpeedRaw(p, 5, 6);
          vehicleMoving := (flMs | brMs) != 0;
        }
        if addr == 508 {
          var iccSteering := GetBit(p, 1);
          controlsAllowed := iccSteering;
        }
      }
    }

    /** `byd_init`: longitudinal off, controls disabled, and the message lists of this mode. */
    method Init(param: int) returns (cfg: SafetyConfig)
      modifies this
      ensures !controlsAllowed && !bydLongitudinal
      ensures cfg.txMsgs == BydTxMsgs && cfg.rxChecks == BydRxChecks
      ensures gasPressed == old(gasPressed) && brakePressed == old(brakePressed)
      ensures vehicleMoving == old(vehicleMoving) && angleMeas == old(angleMeas)
    {
      bydLongitudinal := false;
      controlsAllowed := false;
      cfg := SafetyConfig(BydRxChecks, BydTxMsgs);
    }
  }

  /** The transmit list is exactly (482, bus 0, 8 bytes) and (790, bus 0, 8 bytes). */
  lemma TxMsgsExactly()
    ensures (set m | m in BydTxMsgs :: (m.addr, m.bus, m.len)) == {(482, 0, 8), (790, 0, 8)}
  {
    assert BydTxMsgs[0] in BydTxMsgs && BydTxMsgs[1] in BydTxMsgs;
  }

  /** The receive checks cover exactly the addresses the receive hook acts on, all on bus 0. */
  lemma RxChecksMatchHook()
    ensures (set c | c in BydRxChecks :: c.addr) == {287, 834, 496, 508}
    ensures forall c :: c in BydRxChecks ==> c.bus == 0
  {
    assert BydRxChecks[0] in BydRxChecks && BydRxChecks[1] in BydRxChecks;
    assert BydRxChecks[2] in BydRxChecks && BydRxChecks[3] in BydRxChecks;
  }

  /** A frame at address 508 alone turns controls on (bit 1 set) and off again (bit 1 clear). */
  method ControlsFollowIccBit() returns (afterOn: bool, afterOff: bool)
    ensures afterOn && !afterOff
  {
    var g := new SafetyGlobals();
    var on: Payload := seq(64, i => if i == 0 then 2 as bv8 else 0);
    var off: Payload := seq(64, _ => 0);
    g.RxHook(CanPacket(0, 508, on));
    afterOn := g.controlsAllowed;
    g.RxHook(CanPacket(0, 508, off));
    afterOff := g.controlsAllowed;
  }
}
