/** The device's binary formats: the 18-byte shower history record that
    `decodeShowerRecordsArray` parses, and the 4-byte clock value that
    `writeDateTimestamp` sends. All fields are unsigned little-endian. */
module Wire {
  import opened Wrappers
  import opened LittleEndian

  /** The record layout: offset and width of each field, in field order. */
  const SHOWER_ID_AT := 0
  const AVG_TEMP_AT := 4
  const DURATION_AT := 6
  const WATER_CONSUMED_AT := 8
  const TIMESTAMP_AT := 12
  const INITIAL_TEMP_AT := 16
  const RECORD_SIZE := 18

  const U16_LIMIT := 0x1_0000
  const U32_LIMIT := 0x1_0000_0000

  /** ShowerRecords (types.ts): temperatures in hundredths of a degree, duration in
      seconds, water in thousandths of a litre, timestamp in Unix seconds. */
  datatype ShowerRecord = ShowerRecord(
    showerID: nat,
    avgTemp: nat,
    duration: nat,
    waterConsumed: nat,
    timestamp: nat,
    initialTemp: nat)

  /** Every field fits its width on the wire. */
  predicate InRange(r: ShowerRecord) {
    && r.showerID < U32_LIMIT
    && r.avgTemp < U16_LIMIT
    && r.duration < U16_LIMIT
    && r.waterConsumed < U32_LIMIT
    && r.timestamp < U32_LIMIT
    && r.initialTemp < U16_LIMIT
  }

  lemma Pow256Widths()
    ensures Pow256(2) == U16_LIMIT && Pow256(4) == U32_LIMIT
  {
  }

  /** `Uint8Array.prototype.slice(start, end)`: both bounds are clamped to the length. */
  function Slice(b: seq<byte>, start: nat, end: nat): (s: seq<byte>)
    requires start <= end
    ensures end <= |b| ==> s == b[start..end]
    ensures start < end && end > |b| ==> |s| < end - start
  {
    var lo := if start <= |b| then start else |b|;
    var hi := if end <= |b| then end else |b|;
    b[lo..hi]
  }

  /** One field: `Buffer.from(bytes.slice(at, at + width)).readUIntLE(0)`. */
  function Field(bytes: seq<byte>, at: nat, width: nat): (r: Result<nat, BufferError>)
    requires width > 0
    ensures r.Success? <==> at + width <= |bytes|
    ensures r.Success? ==> r.value < Pow256(width) && ToLE(r.value, width) == bytes[at..at + width]
  {
    ReadUIntLE(Slice(bytes, at, at + width), 0, width)
  }

  /** decodeShowerRecordsArray: the six fields read in order; the first read that
      runs past the end of the buffer throws, so nothing is decoded. */
  function DecodeShowerRecordsArray(bytes: seq<byte>): (r: Result<ShowerRecord, BufferError>)
    ensures r.Success? <==> |bytes| >= RECORD_SIZE
    ensures r.Success? ==> InRange(r.value)
    ensures r.Success? ==>
      && ToLE(r.value.showerID, 4) == bytes[0..4]
      && ToLE(r.value.avgTemp, 2) == bytes[4..6]
      && ToLE(r.value.duration, 2) == bytes[6..8]
      && ToLE(r.value.waterConsumed, 4) == bytes[8..12]
      && ToLE(r.value.timestamp, 4) == bytes[12..16]
      && ToLE(r.value.initialTemp, 2) == bytes[16..18]
  {
    Pow256Widths();
    var showerID :- Field(bytes, SHOWER_ID_AT, 4);
    var avgTemp :- Field(bytes, AVG_TEMP_AT, 2);
    var duration :- Field(bytes, DURATION_AT, 2);
    var waterConsumed :- Field(bytes, WATER_CONSUMED_AT, 4);
    var timestamp :- Field(bytes, TIMESTAMP_AT, 4);
    var initialTemp :- Field(bytes, INITIAL_TEMP_AT, 2);
    Success(ShowerRecord(showerID, avgTemp, duration, waterConsumed, timestamp, initialTemp))
  }

  /** The 18 bytes the device sends for a record: the inverse of the decoder. */
  function EncodeRecord(r: ShowerRecord): (b: seq<byte>)
    ensures |b| == RECORD_SIZE
  {
    ToLE(r.showerID, 4) + ToLE(r.avgTemp, 2) + ToLE(r.duration, 2)
      + ToLE(r.waterConsumed, 4) + ToLE(r.timestamp, 4) + ToLE(r.initialTemp, 2)
  }

  /** The encoded record puts each field's bytes at its offset in the layout. */
  lemma EncodeRecordLayout(r: ShowerRecord)
    ensures var b := EncodeRecord(r);
      && b[0..4] == ToLE(r.showerID, 4)
      && b[4..6] == ToLE(r.avgTemp, 2)
      && b[6..8] == ToLE(r.duration, 2)
      && b[8..12] == ToLE(r.waterConsumed, 4)
      && b[12..16] == ToLE(r.timestamp, 4)
      && b[16..18] == ToLE(r.initialTemp, 2)
  {
  }

  /** Encoding six in-range fields by the layout and decoding gives them back. */
  lemma RecordRoundTrip(r: ShowerRecord)
    requires InRange(r)
    ensures DecodeShowerRecordsArray(EncodeRecord(r)) == Success(r)
  {
    Pow256Widths();
    EncodeRecordLayout(r);
    var d := DecodeShowerRecordsArray(EncodeRecord(r)).value;
    FromLEToLE(r.showerID, 4);
    FromLEToLE(d.showerID, 4);
    FromLEToLE(r.avgTemp, 2);
    FromLEToLE(d.avgTemp, 2);
    FromLEToLE(r.duration, 2);
    FromLEToLE(d.duration, 2);
    FromLEToLE(r.waterConsumed, 4);
    FromLEToLE(d.waterConsumed, 4);
    FromLEToLE(r.timestamp, 4);
    FromLEToLE(d.timestamp, 4);
    FromLEToLE(r.initialTemp, 2);
    FromLEToLE(d.initialTemp, 2);
  }

  /** Every decodable buffer is a record's encoding followed by ignored bytes. */
  lemma DecodeEncode(bytes: seq<byte>)
    requires |bytes| >= RECORD_SIZE
    ensures EncodeRecord(DecodeShowerRecordsArray(bytes).value) == bytes[..RECORD_SIZE]
  {
  }

  /** Bytes after the first 18 do not affect the decoded record. */
  lemma DecodeIgnoresTrailingBytes(bytes: seq<byte>, extra: seq<byte>)
    requires |bytes| >= RECORD_SIZE
    ensures DecodeShowerRecordsArray(bytes + extra) == DecodeShowerRecordsArray(bytes)
  {
    var whole := bytes + extra;
    assert whole[..RECORD_SIZE] == bytes[..RECORD_SIZE];
    DecodeEncode(whole);
    DecodeEncode(bytes);
    RecordRoundTrip(DecodeShowerRecordsArray(whole).value);
    RecordRoundTrip(DecodeShowerRecordsArray(bytes).value);
  }

  /** The clock value writeDateTimestamp sends: `writeUInt32LE(seconds, 0)` into a
      4-byte buffer, which throws for a value that needs more than 32 bits. */
  function TimestampPayload(seconds: nat): (r: Result<seq<byte>, BufferError>)
    ensures r.Success? <==> seconds < U32_LIMIT
    ensures r.Success? ==> |r.value| == 4 && DecodeU32(r.value) == Success(seconds)
  {
    Pow256Widths();
    WriteUIntLE(seconds, 4)
  }

  /** `buffer.readUInt32LE(0)`: the reader a value channel uses by default, and
      the one that turns the clock payload back into the seconds. */
  function DecodeU32(bytes: seq<byte>): (r: Result<nat, BufferError>)
    ensures r.Success? <==> |bytes| >= 4
    ensures r.Success? ==> r.value < U32_LIMIT && ToLE(r.value, 4) == bytes[..4]
  {
    Pow256Widths();
    ReadUIntLE(bytes, 0, 4)
  }

  /** A completed-shower sample: shower 1, 23.82 degrees on average, 60 s,
      1000 ml, at Unix time 0x666A7260 = 1718252128, starting at 1.00 degree. */
  const SAMPLE_BYTES: seq<byte> :=
    [0x01, 0x00, 0x00, 0x00, 0x4E, 0x09, 0x3C, 0x00, 0xE8, 0x03, 0x00, 0x00,
     0x60, 0x72, 0x6A, 0x66, 0x64, 0x00]
  const SAMPLE_RECORD := ShowerRecord(1, 2382, 60, 1000, 1718252128, 100)

  /** The sample payload decodes to the sample record. */
  lemma CompletedShowerSample()
    ensures DecodeShowerRecordsArray(SAMPLE_BYTES) == Success(SAMPLE_RECORD)
  {
    SampleShowerID();
    SampleAvgTemp();
    SampleDuration();
    SampleWaterConsumed();
    SampleTimestamp();
    SampleInitialTemp();
  }

  lemma SampleShowerID()
    ensures DecodeShowerRecordsArray(SAMPLE_BYTES).Success?
    ensures DecodeShowerRecordsArray(SAMPLE_BYTES).value.showerID == 1
  {
    var field: seq<byte> := [0x01, 0x00, 0x00, 0x00];
    assert SAMPLE_BYTES[0..4] == field by {
      forall i | 0 <= i < 4 ensures SAMPLE_BYTES[0 + i] == field[i] { }
    }
    Pow256Widths();
    var r := DecodeShowerRecordsArray(SAMPLE_BYTES).value;
    FromLEToLE(r.showerID, 4);
  }

  lemma SampleAvgTemp()
    ensures DecodeShowerRecordsArray(SAMPLE_BYTES).Success?
    ensures DecodeShowerRecordsArray(SAMPLE_BYTES).value.avgTemp == 2382
  {
    var field: seq<byte> := [0x4E, 0x09];
    assert SAMPLE_BYTES[4..6] == field by {
      forall i | 0 <= i < 2 ensures SAMPLE_BYTES[4 + i] == field[i] { }
    }
    Pow256Widths();
    var r := DecodeShowerRecordsArray(SAMPLE_BYTES).value;
    FromLEToLE(r.avgTemp, 2);
  }

  lemma SampleDuration()
    ensures DecodeShowerRecordsArray(SAMPLE_BYTES).Success?
    ensures DecodeShowerRecordsArray(SAMPLE_BYTES).value.duration == 60
  {
    var field: seq<byte> := [0x3C, 0x00];
    assert SAMPLE_BYTES[6..8] == field by {
      forall i | 0 <= i < 2 ensures SAMPLE_BYTES[6 + i] == field[i] { }
    }
    Pow256Widths();
    var r := DecodeShowerRecordsArray(SAMPLE_BYTES).value;
    FromLEToLE(r.duration, 2);
  }

  lemma SampleWaterConsumed()
    ensures DecodeShowerRecordsArray(SAMPLE_BYTES).Success?
    ensures DecodeShowerRecordsArray(SAMPLE_BYTES).value.waterConsumed == 1000
  {
    var field: seq<byte> := [0xE8, 0x03, 0x00, 0x00];
    assert SAMPLE_BYTES[8..12] == field by {
      forall i | 0 <= i < 4 ensures SAMPLE_BYTES[8 + i] == field[i] { }
    }
    Pow256Widths();
    var r := DecodeShowerRecordsArray(SAMPLE_BYTES).value;
    FromLEToLE(r.waterConsumed, 4);
  }

  lemma SampleTimestamp()
    ensures DecodeShowerRecordsArray(SAMPLE_BYTES).Success?
    ensures DecodeShowerRecordsArray(SAMPLE_BYTES).value.timestamp == 1718252128
  {
    var field: seq<byte> := [0x60, 0x72, 0x6A, 0x66];
    assert SAMPLE_BYTES[12..16] == field by {
      forall i | 0 <= i < 4 ensures SAMPLE_BYTES[12 + i] == field[i] { }
    }
    Pow256Widths();
    var r := DecodeShowerRecordsArray(SAMPLE_BYTES).value;
    FromLEToLE(r.timestamp, 4);
  }

  lemma SampleInitialTemp()
    ensures DecodeShowerRecordsArray(SAMPLE_BYTES).Success?
    ensures DecodeShowerRecordsArray(SAMPLE_BYTES).value.initialTemp == 100
  {
    var field: seq<byte> := [0x64, 0x00];
    assert SAMPLE_BYTES[16..18] == field by {
      forall i | 0 <= i < 2 ensures SAMPLE_BYTES[16 + i] == field[i] { }
    }
    Pow256Widths();
    var r := DecodeShowerRecordsArray(SAMPLE_BYTES).value;
    FromLEToLE(r.initialTemp, 2);
  }
}
