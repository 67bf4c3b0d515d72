/**
 * The Ogg/Opus byte stream of severus (`stream.rs`): `OpusWriter` frames each
 * RTP payload as one Ogg page (the page layout of section 6 of RFC 3533,
 * with one segment and the checksum left as 0) and appends it to a shared
 * buffer; `OpusReader` hands that buffer to the voice library, which reads a
 * 2-byte size and then that many payload bytes.
 *
 * Rust integer arithmetic is modelled with release-build wrap-around.
 */
module OggStream {
  import opened Wrappers
  import opened Bytes

  const U32Modulus: nat := 0x1_0000_0000
  const U64Modulus: nat := 0x1_0000_0000_0000_0000
  type U32 = x: int | 0 <= x < 0x1_0000_0000
  type U64 = x: int | 0 <= x < 0x1_0000_0000_0000_0000

  /** `PAGE_HEADER_SIZE`: the fixed part of an Ogg page header. */
  const PageHeaderSize: nat := 27
  /** `PAGE_HEADER_SIGNATURE`: the capture pattern "OggS". */
  const PageHeaderSignature: seq<Byte> := [0x4F, 0x67, 0x67, 0x53]
  const PageHeaderTypeContinuationOfStream: Byte := 0
  const PageHeaderTypeEndOfStream: Byte := 4

  /** The fields of a page header as `write_page` lays them out. */
  datatype PageHeader = PageHeader(headerType: Byte, granule: U64, serial: U32, pageIndex: U32, segmentSize: Byte)

  /**
   * One page: signature, version 0, header type, granule position (LE64),
   * serial (LE32), page index (LE32), checksum 0 (LE32), one segment, the
   * segment size (the payload length truncated to a byte), then the payload.
   */
  function Page(payload: seq<Byte>, headerType: Byte, granule: U64, serial: U32, pageIndex: U32): (page: seq<Byte>)
    ensures |page| == PageHeaderSize + 1 + |payload|
    ensures page[..4] == PageHeaderSignature
    ensures page[PageHeaderSize] == |payload| % 256
    ensures page[PageHeaderSize + 1..] == payload
  {
    PageHeaderSignature + [0, headerType] + LE(granule, 8) + LE(serial, 4) + LE(pageIndex, 4)
      + LE(0, 4) + [1, |payload| % 256] + payload
  }

  /** Parse the 28 header bytes of a page (the reader's sequence of `read_*` calls). */
  function ParseHeader(bytes: seq<Byte>): PageHeader
    requires |bytes| >= PageHeaderSize + 1
  {
    Pow256Values();
    PageHeader(bytes[5], FromLE(bytes[6..14]), FromLE(bytes[14..18]), FromLE(bytes[18..22]), bytes[27])
  }

  /** Parsing a written page's header gives back every field that was written. */
  lemma ParsePage(payload: seq<Byte>, headerType: Byte, granule: U64, serial: U32, pageIndex: U32)
    ensures var page := Page(payload, headerType, granule, serial, pageIndex);
      && page[4] == 0 && page[26] == 1 && FromLE(page[22..26]) == 0
      && ParseHeader(page) == PageHeader(headerType, granule, serial, pageIndex, |payload| % 256)
  {
    var page := Page(payload, headerType, granule, serial, pageIndex);
    assert page[6..14] == LE(granule, 8);
    assert page[14..18] == LE(serial, 4);
    assert page[18..22] == LE(pageIndex, 4);
    assert page[22..26] == LE(0, 4);
    LERoundTrip(granule, 8);
    LERoundTrip(serial, 4);
    LERoundTrip(pageIndex, 4);
    LERoundTrip(0, 4);
  }

  /** The Opus depacketizer failed: the RTP payload is empty. */
  datatype MediaError = ErrShortPacket

  /** `OpusPacket::depacketize`: an Opus RTP payload is the Opus packet itself; an empty one is an error. */
  function Depacketize(payload: seq<Byte>): (r: Result<seq<Byte>, MediaError>)
    ensures r.Success? <==> |payload| > 0
    ensures r.Success? ==> r.value == payload
  {
    if |payload| == 0 then Failure(ErrShortPacket) else Success(payload)
  }

  /** The granule position after a packet with `timestamp`: unchanged for the first packet (sentinel 1). */
  function NextGranule(granule: U64, previousTimestamp: U32, timestamp: U32): (g: U64)
    ensures previousTimestamp == 1 ==> g == granule
    ensures (previousTimestamp != 1 && previousTimestamp <= timestamp && granule + (timestamp - previousTimestamp) < U64Modulus)
              ==> g == granule + (timestamp - previousTimestamp)
  {
    if previousTimestamp == 1 then granule
    else
      var increment := (timestamp - previousTimestamp) % U32Modulus;
      (granule + increment) % U64Modulus
  }

  class OpusWriter {
    /** The buffer shared with the reader. */
    var data: seq<Byte>
    const sampleRate: nat
    const channelCount: nat
    const serial: U32
    var pageIndex: U32
    var previousGranulePosition: U64
    var previousTimestamp: U32
    var lastPayloadSize: nat
    var lastPayload: seq<Byte>

    /** `OpusWriter::new`; the random serial number is a parameter. */
    constructor (randomSerial: U32)
      ensures data == [] && serial == randomSerial
      ensures sampleRate == 48000 && channelCount == 2
      ensures pageIndex == 0 && previousTimestamp == 1 && previousGranulePosition == 1
      ensures lastPayloadSize == 0 && lastPayload == []
    {
      data := [];
      sampleRate := 48000;
      channelCount := 2;
      serial := randomSerial;
      pageIndex := 0;
      previousTimestamp := 1;
      previousGranulePosition := 1;
      lastPayloadSize := 0;
      lastPayload := [];
    }

    /** `write_page`: remember the payload and append one page to the buffer. */
    method WritePage(payload: seq<Byte>, headerType: Byte, granulePos: U64, index: U32)
      modifies this
      ensures data == old(data) + Page(payload, headerType, granulePos, serial, index)
      ensures lastPayloadSize == |payload| && lastPayload == payload
      ensures pageIndex == old(pageIndex) && previousGranulePosition == old(previousGranulePosition)
      ensures previousTimestamp == old(previousTimestamp)
    {
      lastPayloadSize := |payload|;
      lastPayload := payload;
      var page := PageHeaderSignature + [0, headerType];
      page := page + LE(granulePos, 8);
      page := page + LE(serial, 4);
      page := page + LE(index, 4);
      page := page + LE(0, 4);
      page := page + [1, lastPayloadSize % 256];
      page := page + payload;
      data := data + page;
    }

    /**
     * `write_rtp`: depacketize, advance the granule position by the timestamp
     * delta (except after the sentinel), write a continuation page with the
     * current page index, and count the page.
     */
    method WriteRtp(payload: seq<Byte>, timestamp: U32) returns (r: Outcome<MediaError>)
      modifies this
      ensures r.Fail? <==> |payload| == 0
      ensures r.Fail? ==>
        && data == old(data) && pageIndex == old(pageIndex)
        && previousGranulePosition == old(previousGranulePosition)
        && previousTimestamp == old(previousTimestamp)
        && lastPayload == old(lastPayload) && lastPayloadSize == old(lastPayloadSize)
      ensures r.Pass? ==>
        var g := NextGranule(old(previousGranulePosition), old(previousTimestamp), timestamp);
        && previousGranulePosition == g
        && previousTimestamp == timestamp
        && data == old(data) + Page(payload, PageHeaderTypeContinuationOfStream, g, serial, old(pageIndex))
        && pageIndex == (old(pageIndex) + 1) % U32Modulus
        && lastPayload == payload && lastPayloadSize == |payload|
    {
      var opus := Depacketize(payload);
      if opus.Failure? {
        return Fail(opus.error);
      }
      if previousTimestamp != 1 {
        var increment := (timestamp - previousTimestamp) % U32Modulus;
        previousGranulePosition := (previousGranulePosition + increment) % U64Modulus;
      }
      previousTimestamp := timestamp;
      WritePage(opus.value, PageHeaderTypeContinuationOfStream, previousGranulePosition, pageIndex);
      pageIndex := (pageIndex + 1) % U32Modulus;
      r := Pass;
    }

    /** `close`: repeat the last payload on an end-of-stream page numbered `page_index - 1`. */
    method Close()
      modifies this
      ensures data == old(data) + Page(old(lastPayload), PageHeaderTypeEndOfStream, previousGranulePosition,
                                       serial, (old(pageIndex) + U32Modulus - 1) % U32Modulus)
      ensures pageIndex == old(pageIndex) && previousGranulePosition == old(previousGranulePosition)
      ensures previousTimestamp == old(previousTimestamp)
      ensures lastPayload == old(lastPayload) && lastPayloadSize == |old(lastPayload)|
    {
      var payload := lastPayload;
      WritePage(payload, PageHeaderTypeEndOfStream, previousGranulePosition, (pageIndex + U32Modulus - 1) % U32Modulus);
    }
  }

  /** Two bytes of `n` as a little-endian `i16` (`write_i16::<LittleEndian>(n as i16)`). */
  function I16LE(n: nat): (r: seq<Byte>)
    ensures |r| == 2
  {
    LE(n % 0x1_0000, 2)
  }

  /** What one `read` call does: the bytes put at the front of `buf`, the buffer left, the reader's size memory, and the count returned. */
  datatype ReadOutcome = ReadOutcome(written: seq<Byte>, data: seq<Byte>, lastPayloadSize: nat, count: nat)

  /** The reader ran into a slice index past the end of the buffer (a panic). */
  datatype Panic = SliceOutOfRange

  /**
   * `OpusReader::read` as written: a 2-byte read is a size read; it checks for
   * 27 buffered bytes but slices 28, so with exactly 27 bytes it panics.
   */
  function ReadAsWritten(data: seq<Byte>, lastPayloadSize: nat, bufLen: nat): (r: Result<ReadOutcome, Panic>)
    ensures r.Failure? <==> bufLen == 2 && |data| == PageHeaderSize
  {
    if bufLen == 2 then
      if |data| < PageHeaderSize then Success(ReadOutcome(I16LE(lastPayloadSize), data, lastPayloadSize, 2))
      else if |data| < PageHeaderSize + 1 then Failure(SliceOutOfRange)
      else Success(ReadOutcome([data[PageHeaderSize], 0], data[PageHeaderSize + 1..], lastPayloadSize, 2))
    else if |data| < bufLen then Success(ReadOutcome([], data, lastPayloadSize, bufLen))
    else Success(ReadOutcome(data[..bufLen], data[bufLen..], bufLen, bufLen))
  }

  /** The 27-byte guard lets a 27-byte buffer through to the 28-byte slice. */
  lemma ReadAsWrittenPanicsOnPartialHeader(data: seq<Byte>, lastPayloadSize: nat)
    requires |data| == 27
    ensures ReadAsWritten(data, lastPayloadSize, 2) == Failure(SliceOutOfRange)
  {
  }

  /**
   * `OpusReader::read` with the size read guarded by the 28 bytes it takes:
   *  - a size read with a whole header buffered returns the segment-size byte
   *    as an `i16` and consumes the header;
   *  - a size read without one returns the last payload size and consumes nothing;
   *  - a payload read with too few bytes buffered consumes nothing and leaves
   *    `buf` untouched, but still reports `buf.len()` bytes;
   *  - otherwise it copies and consumes exactly `buf.len()` bytes.
   */
  function Read(data: seq<Byte>, lastPayloadSize: nat, bufLen: nat): (r: ReadOutcome)
    ensures r.count == bufLen
    ensures bufLen == 2 && |data| < PageHeaderSize + 1 ==>
              r == ReadOutcome(I16LE(lastPayloadSize), data, lastPayloadSize, 2)
    ensures bufLen == 2 && |data| >= PageHeaderSize + 1 ==>
              FromLE(r.written) == data[PageHeaderSize] && |r.written| == 2
              && data == data[..PageHeaderSize + 1] + r.data && r.lastPayloadSize == lastPayloadSize
    ensures bufLen != 2 && |data| < bufLen ==> r.written == [] && r.data == data && r.lastPayloadSize == lastPayloadSize
    ensures bufLen != 2 && |data| >= bufLen ==> r.written + r.data == data && |r.written| == bufLen && r.lastPayloadSize == bufLen
  {
    if bufLen == 2 then
      if |data| < PageHeaderSize + 1 then ReadOutcome(I16LE(lastPayloadSize), data, lastPayloadSize, 2)
      else
        var size: Byte := data[PageHeaderSize];
        assert FromLE([size, 0]) == size by {
          assert [size, 0][1..] == [0];
        }
        assert data == data[..PageHeaderSize + 1] + data[PageHeaderSize + 1..];
        ReadOutcome([size, 0], data[PageHeaderSize + 1..], lastPayloadSize, 2)
    else if |data| < bufLen then ReadOutcome([], data, lastPayloadSize, bufLen)
    else
      assert data == data[..bufLen] + data[bufLen..];
      ReadOutcome(data[..bufLen], data[bufLen..], bufLen, bufLen)
  }

  /** The guarded read agrees with the code as written wherever the code does not panic. */
  lemma ReadAgreesWhereNoPanic(data: seq<Byte>, lastPayloadSize: nat, bufLen: nat)
    requires !(bufLen == 2 && |data| == PageHeaderSize)
    ensures ReadAsWritten(data, lastPayloadSize, bufLen) == Success(Read(data, lastPayloadSize, bufLen))
  {
  }

  /**
   * Round trip: a page written for a payload of 1 to 255 bytes (other than 2,
   * which the reader cannot tell from a size read), read as a size and then
   * as that many payload bytes, yields the payload and leaves what followed.
   */
  lemma PageRoundTrip(payload: seq<Byte>, headerType: Byte, granule: U64, serial: U32, pageIndex: U32,
                      rest: seq<Byte>, lastPayloadSize: nat)
    requires 0 < |payload| <= 255 && |payload| != 2
    ensures var page := Page(payload, headerType, granule, serial, pageIndex);
      var first := Read(page + rest, lastPayloadSize, 2);
      && FromLE(first.written) == |payload|
      && first.data == payload + rest
      && var second := Read(first.data, first.lastPayloadSize, FromLE(first.written));
         && second.written == payload
         && second.data == rest
         && second.lastPayloadSize == |payload|
  {
    var page := Page(payload, headerType, granule, serial, pageIndex);
    assert (page + rest)[PageHeaderSize] == |payload|;
    assert (page + rest)[..PageHeaderSize + 1] + (payload + rest) == page + rest;
  }

  /**
   * A 2-byte payload is taken for a size read: after its header is consumed,
   * the next 2-byte read does not return the payload.
   */
  lemma TwoBytePayloadMisread(payload: seq<Byte>, headerType: Byte, granule: U64, serial: U32, pageIndex: U32,
                              lastPayloadSize: nat)
    requires |payload| == 2
    ensures var first := Read(Page(payload, headerType, granule, serial, pageIndex), lastPayloadSize, 2);
      && first.data == payload
      && Read(first.data, first.lastPayloadSize, 2).written == I16LE(lastPayloadSize)
  {
  }

  class OpusReader {
    const writer: OpusWriter
    var lastPayloadSize: nat

    /** `OpusReader::new`: no payload has been read yet. */
    constructor (writer: OpusWriter)
      ensures this.writer == writer && lastPayloadSize == 0
    {
      this.writer := writer;
      lastPayloadSize := 0;
    }

    /** `read`: one call of the `Read` trait, filling the front of `buf` and draining the writer's buffer. */
    method ReadInto(buf: array<Byte>) returns (count: nat)
      modifies this, writer, buf
      ensures var o := Read(old(writer.data), old(lastPayloadSize), buf.Length);
        && count == o.count
        && writer.data == o.data
        && lastPayloadSize == o.lastPayloadSize
        && buf[..] == o.written + old(buf[|o.written|..])
      ensures writer.pageIndex == old(writer.pageIndex) && writer.lastPayload == old(writer.lastPayload)
      ensures writer.previousGranulePosition == old(writer.previousGranulePosition)
      ensures writer.previousTimestamp == old(writer.previousTimestamp)
      ensures writer.lastPayloadSize == old(writer.lastPayloadSize)
    {
      var bufLen := buf.Length;
      var data := writer.data;
      if bufLen == 2 {
        if |data| < PageHeaderSize + 1 {
          var bytes := I16LE(lastPayloadSize);
          buf[0], buf[1] := bytes[0], bytes[1];
          assert buf[..] == bytes;
          return bufLen;
        }
        buf[0], buf[1] := data[PageHeaderSize], 0;
        assert buf[..] == [data[PageHeaderSize], 0];
        writer.data := data[PageHeaderSize + 1..];
        return bufLen;
      }
      if |data| < bufLen {
        return bufLen;
      }
      lastPayloadSize := bufLen;
      var i := 0;
      while i < bufLen
        invariant 0 <= i <= bufLen
        invariant buf[..i] == data[..i]
        modifies buf
      {
        buf[i] := data[i];
        i := i + 1;
      }
      assert buf[..] == buf[..bufLen];
      writer.data := data[bufLen..];
      count := bufLen;
    }
  }
}
