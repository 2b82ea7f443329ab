/** `pico_enclosure/environment.py`, `DHTXX` and its `DHT11` / `DHT22` kinds:
    the enclosure's temperature and humidity sensor, read by polling the data
    pin. The 40 pin readings taken after each high pulse and the clock are
    inputs; the start-code handshake is not modelled.

    The sensor sends its five bytes most significant bit first. The driver
    packs the `i`-th reading at bit `i`, reads the humidity from bits 24 and
    up, compares the checksum with the unmasked byte sum, stores the fields
    before that comparison, and never records the measurement time. */
module PicoDht {
  import opened Wrappers
  import opened Numeric
  import Dht

  /** `DHTXX_EXPECTED_BITS`. */
  const ExpectedBits: nat := 40

  /** `bits >> 24`. */
  function Humidity(bits: int): int
  {
    bits / Pow2(24)
  }

  /** `bits >> 8 & 65535`. */
  function RawTemp(bits: int): int
  {
    (bits / 256) % 65536
  }

  /** `bits & 255`. */
  function ChecksumField(bits: int): int
  {
    bits % 256
  }

  /** `1 if raw_temp >> 15 else -1 * raw_temp & (2**15 - 1)`: `*` binds
      tighter than `&`, so the else branch is `(-raw_temp) & 0x7FFF`. */
  function Temperature(raw: int): int
  {
    if raw / 32768 != 0 then 1 else (-raw) % 32768
  }

  /** The checksum test, against the byte sum without `& 0xFF`. */
  predicate ChecksumMatches(bits: int)
  {
    var h, t := Humidity(bits), RawTemp(bits);
    ChecksumField(bits) == h / 256 + h % 256 + t / 256 + t % 256
  }

  /** The read loop's packing: `bits |= pin.value() << idx` for `idx` from
      0 to 39, so the `i`-th reading lands at bit `i`. */
  method Pack(samples: seq<bool>) returns (bits: nat)
    requires |samples| == ExpectedBits
    ensures bits == LsbValue(samples)
    ensures forall i :: 0 <= i < ExpectedBits ==> (BitAt(bits, i) <==> samples[i])
  {
    bits := 0;
    for idx := 0 to ExpectedBits
      invariant bits == LsbValue(samples[..idx])
    {
      // Bit `idx` of `bits` is still clear, so the or adds.
      assert samples[..idx + 1] == samples[..idx] + [samples[idx]];
      LsbValueAppend(samples[..idx], samples[idx]);
      bits := bits + (if samples[idx] then Pow2(idx) else 0);
    }
    assert samples[..ExpectedBits] == samples;
    forall i | 0 <= i < ExpectedBits
      ensures BitAt(bits, i) <==> samples[i]
    {
      LsbValueBits(samples, i);
    }
  }

  /** `DHTXX`. */
  class DHTXX {
    const name: string
    /** `_rest_time`, in seconds. */
    const restTime: int
    /** `_temp`. */
    var temp: Option<int>
    /** `_humidity`. */
    var humidity: Option<int>
    /** `_last_measurement_time`. */
    var lastTime: int

    /** `DHTXX(name, pin, rest_time)`. */
    constructor (name: string, restTime: int)
      ensures this.name == name && this.restTime == restTime
      ensures temp == None && humidity == None && lastTime == 0
    {
      this.name := name;
      this.restTime := restTime;
      temp := None;
      humidity := None;
      lastTime := 0;
    }

    /** `measure()` at time `now` with the 40 readings `samples`: when more
        than the rest time has passed since the (never updated) last
        measurement time, the readings are packed, the fields stored, and
        then the checksum checked. */
    method Measure(now: int, samples: seq<bool>) returns (r: Result<Dht.Climate>)
      requires |samples| == ExpectedBits
      modifies this
      ensures lastTime == old(lastTime)
      ensures now - old(lastTime) <= restTime ==>
                temp == old(temp) && humidity == old(humidity) && r == Ok(Dht.Climate(temp, humidity))
      ensures now - old(lastTime) > restTime ==>
                var bits := LsbValue(samples);
                humidity == Some(Humidity(bits)) && temp == Some(Temperature(RawTemp(bits))) &&
                r == if ChecksumMatches(bits) then Ok(Dht.Climate(temp, humidity))
                     else Err(Exception("Checksum validation failed."))
    {
      if now - lastTime > restTime {
        var bits := Pack(samples);
        humidity := Some(Humidity(bits));
        var rawTemp := RawTemp(bits);
        temp := Some(Temperature(rawTemp));
        if !ChecksumMatches(bits) {
          return Err(Exception("Checksum validation failed."));
        }
      }
      r := Ok(Dht.Climate(temp, humidity));
    }
  }

  /** `DHT11(name, pin)`: rest 1 s. */
  method NewDht11(name: string) returns (d: DHTXX)
    ensures d.name == name && d.restTime == 1
    ensures d.temp == None && d.humidity == None && d.lastTime == 0
  {
    d := new DHTXX(name, 1);
  }

  /** `DHT22(name, pin)` (also `AM2302`): rest 2 s. */
  method NewDht22(name: string) returns (d: DHTXX)
    ensures d.name == name && d.restTime == 2
    ensures d.temp == None && d.humidity == None && d.lastTime == 0
  {
    d := new DHTXX(name, 2);
  }

  /** The reported humidity is readings 24 to 39, the first of them as its
      lowest bit: the temperature's low byte and the checksum, reversed. */
  lemma HumidityFromLastReadings(samples: seq<bool>, k: nat)
    requires |samples| == ExpectedBits && k < 16
    ensures BitAt(Humidity(LsbValue(samples)), k) <==> samples[24 + k]
  {
    BitAtDiv(LsbValue(samples), 24, k);
    LsbValueBits(samples, k + 24);
  }

  /** A set sign bit reads as 1 whatever the magnitude; a positive reading
      `t` reads as `32768 - t`. */
  lemma TemperatureQuirk(raw: int)
    requires 0 <= raw < 65536
    ensures raw >= 32768 ==> Temperature(raw) == 1
    ensures 0 < raw < 32768 ==> Temperature(raw) == 32768 - raw
    ensures raw == 0 ==> Temperature(raw) == 0
  {
  }

  /** 0.5 degrees reads as 32763 and -0.5 degrees as 1, where the
      sign-magnitude reading gives 5 and -5. */
  lemma SignAsWritten()
    ensures Temperature(5) == 32763 && Dht.SignMagnitude(5) == 5
    ensures Temperature(0x8005) == 1 && Dht.SignMagnitude(0x8005) == -5
  {
  }

  /** A frame whose data bytes sum above 255 is always rejected: the
      checksum field is one byte. */
  lemma UnmaskedChecksumRejects(bits: int)
    requires var h, t := Humidity(bits), RawTemp(bits); h / 256 + h % 256 + t / 256 + t % 256 > 255
    ensures !ChecksumMatches(bits)
  {
  }

  /** 60.0 % and 25.0 degrees: bytes 2, 88, 0, 250 with checksum 84. Packed
      in the sensor's own bit order the frame still fails the unmasked
      check, while the breadboard decoder accepts it. */
  lemma ChecksumAsWritten()
    ensures !ChecksumMatches(2 * Pow2(32) + 88 * Pow2(24) + 0 * Pow2(16) + 250 * Pow2(8) + 84)
    ensures Dht.Decode([2, 88, 0, 250, 84]) == Ok(Dht.Measurement(600, 250))
  {
    var v := 2 * Pow2(32) + 88 * Pow2(24) + 250 * Pow2(8) + 84;
    PowersOfTwo();
    assert Humidity(v) == 600;
    assert RawTemp(v) == 250;
  }

  /** The bits a sensor sends for a frame: each byte most significant bit
      first, the bytes in order. */
  function SentBits(frame: seq<Byte>): (r: seq<bool>)
    ensures |r| == 8 * |frame|
  {
    if frame == [] then [] else MsbBits(frame[0], 8) + SentBits(frame[1..])
  }

  /** A reading of 0.1 degrees and 0 % humidity (bytes 0, 0, 0, 1, 1) is
      rejected by the driver, though its checksum is right: packed with the
      first reading lowest, its humidity field is 0x8080 and its checksum
      field 0. */
  lemma BitOrderAsWritten()
    ensures Dht.Decode([0, 0, 0, 1, 1]) == Ok(Dht.Measurement(0, 1))
    ensures !ChecksumMatches(LsbValue(SentBits([0, 0, 0, 1, 1])))
  {
    assert Dht.Decode([0, 0, 0, 1, 1]) == Ok(Dht.Measurement(0, 1));
    var v := LsbValue(SentBits([0, 0, 0, 1, 1]));
    assert v == 0x80_8000_0000 by {
      SentValue();
    }
    PackedFields();
  }

  /** The fields the driver reads from the packed number 0x80_8000_0000. */
  lemma PackedFields()
    ensures Humidity(0x80_8000_0000) == 0x8080 && RawTemp(0x80_8000_0000) == 0 && ChecksumField(0x80_8000_0000) == 0
  {
    var v := 0x80_8000_0000;
    assert Pow2(24) == 0x100_0000 by { PowersOfTwo(); }
    DivModUnique(v, 0x100_0000, 0x8080, 0);
    DivModUnique(v, 256, 0x8080_0000, 0);
    DivModUnique(0x8080_0000, 65536, 0x8080, 0);
  }

  const Zero8: seq<bool> := [false, false, false, false, false, false, false, false]
  const One8: seq<bool> := [false, false, false, false, false, false, false, true]

  /** The number the driver packs from the bits of bytes 0, 0, 0, 1, 1. */
  lemma SentValue()
    ensures LsbValue(SentBits([0, 0, 0, 1, 1])) == 0x80_8000_0000
  {
    SentFrame();
    assert LsbValue(Zero8) == 0 && LsbValue(One8) == 128;
    LsbValueConcat(One8, One8);
    LsbValueConcat(Zero8, One8 + One8);
    LsbValueConcat(Zero8, Zero8 + (One8 + One8));
    LsbValueConcat(Zero8, Zero8 + (Zero8 + (One8 + One8)));
    PowersOfTwo();
  }

  /** The bits sent for bytes 0, 0, 0, 1, 1. */
  lemma SentFrame()
    ensures SentBits([0, 0, 0, 1, 1]) == Zero8 + (Zero8 + (Zero8 + (One8 + One8)))
  {
    assert MsbBits(0, 8) == Zero8;
    MsbBitsOne();
    SentBitsCons(1, []);
    SentBitsCons(1, [1]);
    SentBitsCons(0, [1, 1]);
    SentBitsCons(0, [0, 1, 1]);
    SentBitsCons(0, [0, 0, 1, 1]);
  }

  /** The bits of 1, most significant first. */
  lemma MsbBitsOne()
    ensures MsbBits(1, 8) == One8
  {
    forall i | 0 <= i < 8
      ensures MsbBits(1, 8)[i] == One8[i]
    {
      var k := 7 - i;
      if k > 0 {
        assert Pow2(k) >= 2;
        DivModUnique(1, Pow2(k), 0, 1);
      }
      assert MsbBits(1, 8)[i] == BitAt(1, k);
    }
  }

  lemma SentBitsCons(b: Byte, rest: seq<Byte>)
    ensures SentBits([b] + rest) == MsbBits(b, 8) + SentBits(rest)
  {
    assert ([b] + rest)[1..] == rest;
  }

  /** The byte spelled by eight readings, most significant first. */
  function ByteOf(bits: seq<bool>): Byte
    requires |bits| == 8
  {
    BitsValueBound(bits);
    PowersOfTwo();
    BitsValue(bits)
  }

  /** The five bytes of 40 readings. */
  function FrameBytes(samples: seq<bool>): (frame: seq<Byte>)
    requires |samples| == ExpectedBits
    ensures |frame| == 5
  {
    seq(5, j requires 0 <= j < 5 => ByteOf(samples[8 * j..8 * j + 8]))
  }

  /** The decoding the driver evidently intends: readings most significant bit
      first, the breadboard frame decoder's sign-magnitude temperature and
      masked checksum. */
  function DecodeCorrected(samples: seq<bool>): Result<Dht.Measurement>
    requires |samples| == ExpectedBits
  {
    Dht.Decode(FrameBytes(samples))
  }

  /** Every measurement in range that a sensor sends is decoded as sent. */
  lemma CorrectedRoundTrip(m: Dht.Measurement)
    requires m.humidity < 65536 && -32768 < m.temperature < 32768
    ensures DecodeCorrected(SentBits(Dht.Encode(m))) == Ok(m)
  {
    FrameBytesOfSent(Dht.Encode(m));
    Dht.DecodeEncode(m);
  }

  /** Reading back the bytes of five sent bytes gives those bytes. */
  lemma FrameBytesOfSent(f: seq<Byte>)
    requires |f| == 5
    ensures FrameBytes(SentBits(f)) == f
  {
    var s := SentBits(f);
    forall j | 0 <= j < 5
      ensures FrameBytes(s)[j] == f[j]
    {
      SentByte(f, j);
    }
  }

  /** Byte `j` of a frame reads back from its eight readings. */
  lemma SentByte(f: seq<Byte>, j: nat)
    requires |f| == 5 && j < 5
    ensures FrameBytes(SentBits(f))[j] == f[j]
  {
    var s := SentBits(f);
    SentBitsSlice(f, j);
    assert FrameBytes(s)[j] == ByteOf(MsbBits(f[j], 8));
    MsbBitsValue(f[j], 8);
    assert Pow2(8) == 256 by { PowersOfTwo(); }
    assert f[j] % 256 == f[j];
  }

  /** Byte `j` of a frame is sent as readings `8 * j` to `8 * j + 7`. */
  lemma {:induction false} SentBitsSlice(frame: seq<Byte>, j: nat)
    requires j < |frame|
    ensures SentBits(frame)[8 * j..8 * j + 8] == MsbBits(frame[j], 8)
    decreases j
  {
    if j > 0 {
      SentBitsSlice(frame[1..], j - 1);
      assert SentBits(frame)[8 * j..8 * j + 8] == SentBits(frame[1..])[8 * (j - 1)..8 * (j - 1) + 8];
    }
  }
}
