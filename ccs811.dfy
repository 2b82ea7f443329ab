/** The CCS811 gas sensor's byte decoders, written once for the three copies
    of the driver: `CCS811` in `breadboard/environment.py` and in
    `pico_enclosure/environment.py`, and `CCS811AirQualitySesnor` in
    `pico_enclosure/air_quality.py`. The three copies agree line for line on
    everything here except one thing: the breadboard `data` can merge in a
    compensation device's reading. All three address scans break after the
    first address, so `FindAddress` is the scan of every copy.

    Register reads are inputs: the byte sequences the I2C bus returns. */
module Ccs811 {
  import opened Wrappers
  import opened Numeric
  import opened Json
  import Dht

  /** `CCS811_HARDWARE_ADDRS`. */
  const HardwareAddresses: seq<int> := [0x5A, 0x5B]

  /** The status register: `fw_mode` is bit 7, `app_valid` bit 4,
      `data_ready` bit 3 and `error` bit 0. */
  datatype Status = Status(fwMode: bool, appValid: bool, dataReady: bool, error: bool)

  function ParseStatus(b: int): Status
  {
    Status(BitAt(b, 7), BitAt(b, 4), BitAt(b, 3), BitAt(b, 0))
  }

  /** The status byte a sensor in state `s` reports, unused bits clear. */
  function StatusByte(s: Status): (b: nat)
    ensures b < 256
  {
    var bits := [s.error, false, false, s.dataReady, s.appValid, false, false, s.fwMode];
    LsbValueBound(bits);
    PowersOfTwo();
    LsbValue(bits)
  }

  /** Parsing a status byte recovers every flag it encodes. */
  lemma StatusRoundTrip(s: Status)
    ensures ParseStatus(StatusByte(s)) == s
  {
    var bits := [s.error, false, false, s.dataReady, s.appValid, false, false, s.fwMode];
    LsbValueBits(bits, 0);
    LsbValueBits(bits, 3);
    LsbValueBits(bits, 4);
    LsbValueBits(bits, 7);
  }

  lemma PowersUpTo8()
    ensures Pow2(0) == 1 && Pow2(1) == 2 && Pow2(2) == 4 && Pow2(3) == 8
    ensures Pow2(4) == 16 && Pow2(5) == 32 && Pow2(6) == 64 && Pow2(7) == 128 && Pow2(8) == 256
  {
  }

  /** The error register: bits 0 to 5, in this order. */
  datatype ErrorFlags = ErrorFlags(
    writeRegInvalid: bool, readRegInvalid: bool, measModeInvalid: bool,
    maxResistance: bool, heaterFault: bool, heaterSupply: bool)

  function ParseError(b: int): ErrorFlags
  {
    ErrorFlags(BitAt(b, 0), BitAt(b, 1), BitAt(b, 2), BitAt(b, 3), BitAt(b, 4), BitAt(b, 5))
  }

  /** The error byte a sensor with flags `e` reports, unused bits clear. */
  function ErrorByte(e: ErrorFlags): (b: nat)
    ensures b < 256
  {
    var bits := [e.writeRegInvalid, e.readRegInvalid, e.measModeInvalid, e.maxResistance, e.heaterFault, e.heaterSupply];
    LsbValueBound(bits);
    assert Pow2(6) == 64;
    LsbValue(bits)
  }

  /** Parsing an error byte recovers every flag it encodes. */
  lemma ErrorRoundTrip(e: ErrorFlags)
    ensures ParseError(ErrorByte(e)) == e
  {
    var bits := [e.writeRegInvalid, e.readRegInvalid, e.measModeInvalid, e.maxResistance, e.heaterFault, e.heaterSupply];
    LsbValueBits(bits, 0);
    LsbValueBits(bits, 1);
    LsbValueBits(bits, 2);
    LsbValueBits(bits, 3);
    LsbValueBits(bits, 4);
    LsbValueBits(bits, 5);
  }

  /** `mode(mode)`: mode 4 raises; otherwise the byte written to the
      measurement register is `0x70 & mode << 4` (Python's `<<` binds tighter
      than `&`), which keeps the low three bits of the mode in bits 4 to 6. */
  function ModeByte(mode: int): (r: Result<Byte>)
    ensures mode == 4 <==> r.Err?
    ensures r.Ok? ==> r.value % 16 == 0 && r.value <= 0x70
    ensures r.Ok? ==> forall k: nat :: k < 3 ==> (BitAt(r.value, k + 4) <==> BitAt(mode, k))
  {
    if mode == 4 then Err(Exception("Mode 4 is not supported"))
    else
      var byte := (mode % 8) * 16;
      assert forall k: nat :: k < 3 ==> (BitAt(byte, k + 4) <==> BitAt(mode, k)) by {
        PowersUpTo8();
        forall k: nat | k < 3 ensures BitAt(byte, k + 4) <==> BitAt(mode, k) {
          BitShift(mode % 8, 4, k);
          BitAtMod(mode, 3, k);
        }
      }
      Ok(byte)
  }

  /** The mode the read-back reports: `drive_mode` is the byte shifted down
      by 4 and `interrupt_data_ready` is bit 3. */
  datatype ModeReport = ModeReport(driveMode: int, interruptDataReady: bool)

  function ReadMode(b: Byte): ModeReport
  {
    ModeReport(b / 16, BitAt(b, 3))
  }

  /** Every supported mode from 0 to 7 reads back as written, with the
      data-ready interrupt off. */
  lemma ModeRoundTrip(mode: int)
    requires 0 <= mode < 8 && mode != 4
    ensures ModeByte(mode).Ok?
    ensures ReadMode(ModeByte(mode).value) == ModeReport(mode, false)
  {
    PowersUpTo8();
    var b := ModeByte(mode).value;
    assert b == mode * 16;
  }

  /** The guard compares the argument, not the encoded mode: 12 passes it and
      puts the sensor in drive mode 4. */
  lemma ModeGuardAsWritten()
    ensures ModeByte(12) == Ok(0x40)
    ensures ReadMode(0x40).driveMode == 4
  {
  }

  /** The guard applied to the drive mode that would be written. */
  function CheckedModeByte(mode: int): (r: Result<Byte>)
    ensures r.Err? <==> mode % 8 == 4
    ensures r.Ok? ==> r == ModeByte(mode) && ReadMode(r.value).driveMode != 4
    ensures 0 <= mode < 8 ==> r == ModeByte(mode)
  {
    if mode % 8 == 4 then Err(Exception("Mode 4 is not supported"))
    else
      var r := ModeByte(mode);
      assert r.Ok? && r.value == (mode % 8) * 16;
      r
  }

  /** `int.from_bytes(v, "big")`. */
  function BigEndian(v: seq<Byte>): (r: nat)
  {
    if v == [] then 0 else BigEndian(v[..|v| - 1]) * 256 + v[|v| - 1]
  }

  /** A 16-bit quantity as two big-endian bytes. */
  function TwoBytes(n: nat): seq<Byte>
    requires n < 65536
  {
    [n / 256, n % 256]
  }

  /** Two bytes decode as high * 256 + low, and encoding and decoding 16-bit
      values are inverse to each other. */
  lemma BigEndianTwoBytes(hi: Byte, lo: Byte, n: nat)
    requires n < 65536
    ensures BigEndian([hi, lo]) == hi * 256 + lo < 65536
    ensures BigEndian(TwoBytes(n)) == n
    ensures TwoBytes(BigEndian([hi, lo])) == [hi, lo]
  {
    assert [hi, lo][..1] == [hi];
    assert [hi][..0] == [];
    assert BigEndian([hi]) == hi;
    var t := TwoBytes(n);
    assert t[..1] == [t[0]];
    assert [t[0]][..0] == [];
  }

  /** `data`'s result. `climate` is the reading merged in from a
      compensation device (breadboard only); `status` and `error` are present
      when asked for. */
  datatype Reading = Reading(eco2: nat, tvoc: nat, climate: Option<Dht.Climate>,
                             status: Option<Status>, error: Option<ErrorFlags>)

  /** `data(status, error)` on the algorithm register bytes: eCO2 from bytes
      0-1 and TVOC from bytes 2-3, big-endian; status and error flags from
      bytes 4 and 5 when the argument is truthy (`status == "true"` adds
      nothing, since every non-empty string is truthy). A short read raises
      `IndexError` only when a flag byte is needed. */
  function Data(alg: seq<Byte>, climate: Option<Dht.Climate>, status: Json, error: Json): (r: Result<Reading>)
    ensures r.Err? <==> (Truthy(status) && |alg| <= 4) || (Truthy(error) && |alg| <= 5)
    ensures r.Ok? ==> r.value.eco2 == BigEndian(alg[..Min(2, |alg|)]) && r.value.climate == climate
    ensures r.Ok? ==> r.value.tvoc == BigEndian(alg[Min(2, |alg|)..Min(4, |alg|)])
    ensures r.Ok? ==> (r.value.status.Some? <==> Truthy(status)) && (r.value.error.Some? <==> Truthy(error))
    ensures r.Ok? && Truthy(status) ==> r.value.status == Some(ParseStatus(alg[4]))
    ensures r.Ok? && Truthy(error) ==> r.value.error == Some(ParseError(alg[5]))
  {
    var eco2 := BigEndian(alg[..Min(2, |alg|)]);
    var tvoc := BigEndian(alg[Min(2, |alg|)..Min(4, |alg|)]);
    if Truthy(status) && |alg| <= 4 then Err(IndexError)
    else if Truthy(error) && |alg| <= 5 then Err(IndexError)
    else
      Ok(Reading(eco2, tvoc, climate,
                 if Truthy(status) then Some(ParseStatus(alg[4])) else None,
                 if Truthy(error) then Some(ParseError(alg[5])) else None))
  }

  function Min(a: int, b: int): int
  {
    if a <= b then a else b
  }

  /** The query string "false" still asks for the flags. */
  lemma FalseStringIsTruthy(alg: seq<Byte>)
    requires |alg| == 8
    ensures Data(alg, None, JStr("false"), JStr("false")).Ok?
    ensures Data(alg, None, JStr("false"), JStr("false")).value.status == Some(ParseStatus(alg[4]))
    ensures Data(alg, None, JStr("false"), JStr("false")).value.error == Some(ParseError(alg[5]))
  {
  }

  /** The breadboard `data` as written: with a compensation device it
      rebinds `data` to that device's reading (a dict), so asking for status
      or error flags then looks up key 4 or 5 in the dict and raises `KeyError`.
      A failed compensation reading propagates. */
  function BoardDataAsWritten(alg: seq<Byte>, compensation: Option<Result<Dht.Climate>>, status: Json, error: Json): (r: Result<Reading>)
  {
    match compensation
    case None => Data(alg, None, status, error)
    case Some(Err(e)) => Err(e)
    case Some(Ok(c)) =>
      if Truthy(status) then Err(KeyError("4"))
      else if Truthy(error) then Err(KeyError("5"))
      else Data(alg, Some(c), status, error)
  }

  /** With a compensation device, asking for the flags always fails, though
      the algorithm register holds them. */
  lemma CompensatedFlagsAsWritten(alg: seq<Byte>, c: Dht.Climate)
    requires |alg| == 8
    ensures BoardDataAsWritten(alg, Some(Ok(c)), JBool(true), JBool(false)) == Err(KeyError("4"))
    ensures Data(alg, Some(c), JBool(true), JBool(false)).Ok?
  {
  }

  /** The breadboard `data` reading the flags from the algorithm bytes: it
      agrees with `Data` (and so with the Pico copies) whenever the
      compensation reading succeeds. */
  function BoardData(alg: seq<Byte>, compensation: Option<Result<Dht.Climate>>, status: Json, error: Json): (r: Result<Reading>)
    ensures compensation.Some? && compensation.value.Err? ==> r == Err(compensation.value.error)
    ensures compensation.None? ==> r == BoardDataAsWritten(alg, compensation, status, error)
    ensures compensation.Some? && compensation.value.Ok? && |alg| == 8 ==>
              r.Ok? && r.value.climate == Some(compensation.value.value) &&
              (Truthy(status) ==> r.value.status == Some(ParseStatus(alg[4])))
  {
    match compensation
    case None => Data(alg, None, status, error)
    case Some(Err(e)) => Err(e)
    case Some(Ok(c)) => Data(alg, Some(c), status, error)
  }

  /** The address scan: only the first address found is looked at. An empty
      scan raises; a first address that is not a CCS811 address leaves
      `device_addr` unset, so the reset write that follows raises
      `AttributeError`. */
  function FindAddress(scan: seq<int>): (r: Result<int>)
    ensures scan == [] <==> r == Err(Exception("No CCS811 devices could be found"))
    ensures r.Ok? <==> scan != [] && scan[0] in HardwareAddresses
    ensures r.Ok? ==> r.value == scan[0]
  {
    if scan == [] then Err(Exception("No CCS811 devices could be found"))
    else if scan[0] in HardwareAddresses then Ok(scan[0])
    else Err(AttributeError("device_addr"))
  }

  /** A CCS811 later in the scan is never found. */
  lemma LaterAddressIgnored(other: int, rest: seq<int>)
    requires other !in HardwareAddresses
    ensures FindAddress([other, 0x5A] + rest).Err?
  {
  }
}
