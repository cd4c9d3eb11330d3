/** PassthroughSectionPayloadReader: passes each transport-stream section
    through as one metadata sample, timed by the stream's timestamp
    adjuster. */
module Passthrough {
  import opened Common

  /** A TimestampAdjuster is known by identity. */
  type AdjusterId = nat

  /** What the adjuster answers at the time of a `consume`. */
  datatype TimestampReading = TimestampReading(lastAdjustedTimestampUs: int, timestampOffsetUs: int)

  /** The format's new value and the calls `consume` makes on the output. */
  datatype ConsumeEffect = ConsumeEffect(format: Format, calls: seq<SinkCall>)

  /** The format a reader starts with. */
  function InitialFormat(sampleMimeType: string, containerMimeType: string): (f: Format)
    ensures f.containerMimeType == Some(containerMimeType) && f.sampleMimeType == Some(sampleMimeType)
    ensures f == EMPTY_FORMAT.(containerMimeType := f.containerMimeType, sampleMimeType := f.sampleMimeType)
  {
    EMPTY_FORMAT.(containerMimeType := Some(containerMimeType), sampleMimeType := Some(sampleMimeType))
  }

  /** `consume(sectionData)` on an initialized reader whose output is `to`,
      with `sampleSize` bytes left in the section. */
  function ConsumeStep(format: Format, to: SinkId, reading: TimestampReading, sampleSize: nat): ConsumeEffect {
    var t := reading.lastAdjustedTimestampUs;
    var offset := reading.timestampOffsetUs;
    if t == TIME_UNSET || offset == TIME_UNSET then ConsumeEffect(format, [])
    else
      var next := if offset != format.subsampleOffsetUs then format.(subsampleOffsetUs := offset) else format;
      var announce := if offset != format.subsampleOffsetUs then [SendFormat(Real(to), next)] else [];
      ConsumeEffect(next, announce + [SendData(Real(to), sampleSize, SAMPLE_DATA_PART_MAIN),
                                      SendMetadata(Real(to), t, BUFFER_FLAG_KEY_FRAME, sampleSize, 0, None)])
  }

  /** A section without a known timestamp or offset produces nothing; any
      other produces its whole remaining bytes as one key-frame sample at the
      adjusted time, preceded by a new format exactly when the offset
      changed, and the format changes in its offset only. */
  lemma ConsumeCases(format: Format, to: SinkId, reading: TimestampReading, sampleSize: nat)
    ensures var e := ConsumeStep(format, to, reading, sampleSize);
      var t := reading.lastAdjustedTimestampUs;
      var offset := reading.timestampOffsetUs;
      ((t == TIME_UNSET || offset == TIME_UNSET) <==> e.calls == []) &&
      ((t == TIME_UNSET || offset == TIME_UNSET) ==> e.format == format) &&
      (t != TIME_UNSET && offset != TIME_UNSET ==>
         e.format == format.(subsampleOffsetUs := offset) &&
         |e.calls| == (if offset != format.subsampleOffsetUs then 3 else 2) &&
         (|e.calls| == 3 ==> e.calls[0] == SendFormat(Real(to), e.format)) &&
         e.calls[|e.calls| - 2] == SendData(Real(to), sampleSize, SAMPLE_DATA_PART_MAIN) &&
         e.calls[|e.calls| - 1] == SendMetadata(Real(to), t, BUFFER_FLAG_KEY_FRAME, sampleSize, 0, None))
  {
  }

  /** Consuming a second section with the same offset does not re-emit the
      format: the format only follows the offset. */
  lemma RepeatedOffsetIsQuiet(format: Format, to: SinkId, r1: TimestampReading, r2: TimestampReading,
                              size1: nat, size2: nat)
    requires r1.lastAdjustedTimestampUs != TIME_UNSET && r1.timestampOffsetUs != TIME_UNSET
    requires r2.timestampOffsetUs == r1.timestampOffsetUs
    ensures var e1 := ConsumeStep(format, to, r1, size1);
      var e2 := ConsumeStep(e1.format, to, r2, size2);
      e2.format == e1.format &&
      forall i :: 0 <= i < |e2.calls| ==> !e2.calls[i].SendFormat?
  {
  }

  class PassthroughSectionPayloadReader {
    var format: Format
    var timestampAdjuster: Option<AdjusterId>
    var output: Option<SinkId>

    constructor (sampleMimeType: string, containerMimeType: string)
      ensures format == InitialFormat(sampleMimeType, containerMimeType)
      ensures timestampAdjuster == None && output == None
    {
      format := InitialFormat(sampleMimeType, containerMimeType);
      timestampAdjuster := None;
      output := None;
    }

    /** The adjuster and the output are set together, by `init`. */
    ghost predicate Valid()
      reads this
    {
      timestampAdjuster.Some? ==> output.Some?
    }

    /** `init(adjuster, extractorOutput, idGenerator)`: takes one new id,
        creates a metadata track under it and announces the format at once. */
    method Init(adjuster: Option<AdjusterId>, extractorOutput: ExtractorOutput, idGenerator: TrackIdGenerator)
      returns (events: seq<OutputEvent>)
      modifies this, idGenerator
      ensures Valid()
      ensures idGenerator.generated == old(idGenerator.generated) + 1
      ensures timestampAdjuster == adjuster && format == old(format)
      ensures output == Some(extractorOutput.Track(idGenerator.TrackId(), TRACK_TYPE_METADATA))
      ensures events == [TrackCreated(idGenerator.TrackId(), TRACK_TYPE_METADATA),
                         ToSink(SendFormat(Real(output.value), format))]
    {
      timestampAdjuster := adjuster;
      idGenerator.GenerateNewId();
      var sink := extractorOutput.Track(idGenerator.TrackId(), TRACK_TYPE_METADATA);
      output := Some(sink);
      events := [TrackCreated(idGenerator.TrackId(), TRACK_TYPE_METADATA), ToSink(SendFormat(Real(sink), format))];
    }

    /** `consume(sectionData)` with `bytesLeft` bytes left in the section,
        while the adjuster answers `reading`; before `init` it is a state
        error. */
    method Consume(bytesLeft: nat, reading: TimestampReading) returns (r: Result<seq<SinkCall>>)
      requires Valid()
      modifies this
      ensures Valid()
      ensures timestampAdjuster == old(timestampAdjuster) && output == old(output)
      ensures old(timestampAdjuster).None? ==> r == Fail(IllegalState) && format == old(format)
      ensures old(timestampAdjuster).Some? ==>
        var e := ConsumeStep(old(format), output.value, reading, bytesLeft);
        r == Ok(e.calls) && format == e.format
    {
      if timestampAdjuster.None? {
        return Fail(IllegalState);
      }
      var sampleTimestampUs := reading.lastAdjustedTimestampUs;
      var subsampleOffsetUs := reading.timestampOffsetUs;
      if sampleTimestampUs == TIME_UNSET || subsampleOffsetUs == TIME_UNSET {
        return Ok([]);
      }
      var calls := [];
      if subsampleOffsetUs != format.subsampleOffsetUs {
        format := format.(subsampleOffsetUs := subsampleOffsetUs);
        calls := [SendFormat(Real(output.value), format)];
      }
      var sampleSize := bytesLeft;
      calls := calls + [SendData(Real(output.value), sampleSize, SAMPLE_DATA_PART_MAIN),
                        SendMetadata(Real(output.value), sampleTimestampUs, BUFFER_FLAG_KEY_FRAME, sampleSize, 0, None)];
      r := Ok(calls);
    }
  }
}
