/** The pure part of the relay attenuator driver: its constants, the
    translation of a mixer volume percentage into a six-bit relay code, and
    the bytes that put a code on the relay bank. */
module RelayProtocol {
  import opened Options

  /** I2C address of the relay attenuator. */
  const RELAY_ADDR: int := 0x21
  /** The smallest and the largest relay code. */
  const MIN_VOL: int := 0x00
  const MAX_VOL: int := 0x3F
  /** First byte of every relay update, written before the real value. */
  const GUARD: bv8 := 0x3F

  /** A relay code: one bit per relay of the six-relay bank. */
  type Code = c: int | 0x00 <= c <= 0x3F

  /** One single-byte write on the I2C bus. */
  datatype BusWrite = BusWrite(addr: int, data: bv8)

  /** The exact quotient `a / 100` rounded toward zero, as `int()` rounds
      Python's `a / 100`. The float quotient agrees with it while
      `|a| < 2^47 * 100`; beyond that it may round to the next integer. */
  function TruncDiv100(a: int): (q: int)
    ensures 0 <= a ==> 0 <= q * 100 <= a < q * 100 + 100
    ensures a < 0 ==> q * 100 - 100 < a <= q * 100 <= 0
  {
    if a >= 0 then a / 100 else -((-a) / 100)
  }

  /** `min(MAX_VOL, max(MIN_VOL, x))`: the code nearest to `x`. A value in
      range is kept; one outside moves only as far as the nearer bound. */
  function Clamp(x: int): (c: Code)
    ensures x < c ==> c == MIN_VOL
    ensures c < x ==> c == MAX_VOL
  {
    if x < MIN_VOL then MIN_VOL else if x > MAX_VOL then MAX_VOL else x
  }

  /** The relay code for a mixer volume percentage: the truncated
      `percent * MAX_VOL / 100`, clamped to the code range. */
  function Translate(percent: int): (c: Code)
    ensures 0 <= percent <= 100 ==> c == percent * MAX_VOL / 100
    ensures percent <= 0 ==> c == MIN_VOL
    ensures percent >= 100 ==> c == MAX_VOL
  {
    Clamp(TruncDiv100(percent * MAX_VOL))
  }

  /** The byte that sets the relays to `code`: the six code bits inverted
      (`~code & 0x3F`) with the control bit 0x40 set. */
  function EncodeRelay(code: Code): (b: bv8)
    ensures b & 0x40 == 0x40 && 0x40 <= b <= 0x7F
    ensures (b & 0x3F) as int == MAX_VOL - code
  {
    (!(code as bv8) & 0x3F) | 0x40
  }

  /** The code an encoded byte carries, `(b & 0x3F) ^ 0x3F`; a byte without
      the control bit pattern 0b01 on top (the guard byte, say) carries none. */
  function DecodeRelay(b: bv8): (c: Option<Code>)
    ensures c.Some? <==> 0x40 <= b <= 0x7F
    ensures c.Some? ==> c.value == MAX_VOL - (b & 0x3F) as int
  {
    if b & 0xC0 == 0x40 then Some(((b & 0x3F) ^ 0x3F) as int) else None
  }

  /** The writes of one relay update for `value`: the guard byte, then the
      encoded code. With no code (Python's `None`) the encoding raises after
      the guard byte is out and the update stops there. */
  function RelayFrame(value: Option<Code>): (w: seq<BusWrite>)
    ensures |w| == if value.Some? then 2 else 1
    ensures forall i :: 0 <= i < |w| ==> w[i].addr == RELAY_ADDR
    ensures w[0].data == GUARD
    ensures DecodeRelay(w[|w| - 1].data) == value
  {
    match value
    case None => [BusWrite(RELAY_ADDR, GUARD)]
    case Some(code) => [BusWrite(RELAY_ADDR, GUARD), BusWrite(RELAY_ADDR, EncodeRelay(code))]
  }

  /** The code the relay bank holds after the writes `bus`: the one carried
      by the last byte written, if it carries one. */
  function LatchedCode(bus: seq<BusWrite>): (c: Option<Code>)
    ensures c.Some? ==> |bus| > 0 && EncodeRelay(c.value) == bus[|bus| - 1].data
    ensures c.Some? <==> |bus| > 0 && 0x40 <= bus[|bus| - 1].data <= 0x7F
  {
    if bus == [] then None else DecodeRelay(bus[|bus| - 1].data)
  }

  /** Decoding undoes encoding. */
  lemma DecodeEncode(code: Code)
    ensures DecodeRelay(EncodeRelay(code)) == Some(code)
  {
  }

  /** Encoding undoes decoding: codes and the bytes 0x40..0x7F correspond one to one. */
  lemma EncodeDecode(b: bv8)
    requires 0x40 <= b <= 0x7F
    ensures DecodeRelay(b).Some? && EncodeRelay(DecodeRelay(b).value) == b
  {
  }

  /** Distinct codes put distinct bytes on the bus. */
  lemma EncodeInjective(c1: Code, c2: Code)
    requires EncodeRelay(c1) == EncodeRelay(c2)
    ensures c1 == c2
  {
    DecodeEncode(c1);
    DecodeEncode(c2);
  }

  /** A louder mixer setting never gives a smaller relay code. */
  lemma TranslateMonotone(v: int, w: int)
    requires v <= w
    ensures Translate(v) <= Translate(w)
  {
  }

  /** The examples of the translation and of the encoding: 0% and mute both
      give code MIN_VOL and byte 0x7F, 100% gives MAX_VOL and byte 0x40. */
  lemma TranslateExamples()
    ensures Translate(0) == MIN_VOL && Translate(50) == 31 && Translate(100) == MAX_VOL
    ensures EncodeRelay(MIN_VOL) == 0x7F && EncodeRelay(MAX_VOL) == 0x40
  {
  }
}
