/** SeiReader: exposes one closed-caption track per configured CEA-608 or
    CEA-708 channel and hands SEI buffers to a re-ordering queue, which is a
    collaborator whose calls are recorded in order. */
module Sei {
  import opened Common

  const APPLICATION_CEA608: string := "application/cea-608"
  const APPLICATION_CEA708: string := "application/cea-708"

  /** A call made on the ReorderingBufferQueue. */
  datatype QueueOp = Add(timeUs: int, buffer: seq<bv8>) | SetMaxSize(size: int) | FlushQueue

  /** A channel format with a caption MIME type the reader accepts. */
  predicate IsCaptionMimeType(mime: Option<string>) {
    mime == Some(APPLICATION_CEA608) || mime == Some(APPLICATION_CEA708)
  }

  /** The index of the first channel whose MIME type is rejected, or the
      number of channels when all are accepted. */
  function FirstInvalid(formats: seq<Format>): (k: nat)
    ensures k <= |formats|
  {
    if |formats| == 0 then 0
    else if !IsCaptionMimeType(formats[0].sampleMimeType) then 0
    else 1 + FirstInvalid(formats[1..])
  }

  /** Java's string conversion of a nullable string. */
  function JavaString(s: Option<string>): string {
    if s.Some? then s.value else "null"
  }

  /** The format `createTracks` announces for a channel. */
  function ChannelFormat(channel: Format, containerMimeType: Option<string>, formatId: string): Format {
    Format(Some(formatId), containerMimeType, channel.sampleMimeType, None, channel.selectionFlags,
           channel.language, channel.accessibilityChannel, channel.initializationData,
           OFFSET_SAMPLE_RELATIVE, CUE_REPLACEMENT_BEHAVIOR_MERGE)
  }

  /** The announced format takes the channel's MIME type, selection flags,
      language, accessibility channel and initialization data, the reader's
      container MIME type and the given id; everything else is the builder's
      default. */
  lemma ChannelFormatFields(channel: Format, containerMimeType: Option<string>, formatId: string)
    ensures var f := ChannelFormat(channel, containerMimeType, formatId);
      f.id == Some(formatId) && f.containerMimeType == containerMimeType &&
      f.sampleMimeType == channel.sampleMimeType && f.selectionFlags == channel.selectionFlags &&
      f.language == channel.language && f.accessibilityChannel == channel.accessibilityChannel &&
      f.initializationData == channel.initializationData &&
      f == EMPTY_FORMAT.(id := f.id, containerMimeType := f.containerMimeType, sampleMimeType := f.sampleMimeType,
                         selectionFlags := f.selectionFlags, language := f.language,
                         accessibilityChannel := f.accessibilityChannel, initializationData := f.initializationData)
  {
  }

  /** The id of the announced format: the channel's own, else the
      generator's. */
  function ChannelFormatId(channel: Format, generatedFormatId: string): string {
    if channel.id.Some? then channel.id.value else generatedFormatId
  }

  /** A channel list is accepted exactly when every channel has a caption
      MIME type; the rejected channel is the first one without. */
  lemma {:induction false} FirstInvalidIsFirst(formats: seq<Format>)
    ensures FirstInvalid(formats) == |formats| <==> forall i :: 0 <= i < |formats| ==> IsCaptionMimeType(formats[i].sampleMimeType)
  {
    if |formats| > 0 && IsCaptionMimeType(formats[0].sampleMimeType) {
      FirstInvalidIsFirst(formats[1..]);
      assert forall i :: 1 <= i < |formats| ==> formats[i] == formats[1..][i - 1];
    }
  }

  /** The calls `createTracks` makes for channel `i` of `formats`, whose id
      is the generator's `k`-th: a text track, then its format. */
  function ChannelEvents(channel: Format, containerMimeType: Option<string>, out: ExtractorOutput,
                         ids: IdScheme, k: nat): seq<OutputEvent>
  {
    [TrackCreated(ids.trackIdOf(k), TRACK_TYPE_TEXT),
     ToSink(SendFormat(Real(out.Track(ids.trackIdOf(k), TRACK_TYPE_TEXT)),
                       ChannelFormat(channel, containerMimeType, ChannelFormatId(channel, ids.formatIdOf(k)))))]
  }

  /** The calls for the first `n` channels, the generator starting at `g0`. */
  function CreatedEvents(formats: seq<Format>, containerMimeType: Option<string>, out: ExtractorOutput,
                         ids: IdScheme, g0: nat, n: nat): seq<OutputEvent>
    requires n <= |formats|
  {
    if n == 0 then []
    else CreatedEvents(formats, containerMimeType, out, ids, g0, n - 1) +
         ChannelEvents(formats[n - 1], containerMimeType, out, ids, g0 + n - 1)
  }

  /** Channel i makes calls 2i and 2i+1: its track under the generator's
      (g0+i)-th id, then its format on that track. */
  lemma {:induction false} CreatedEventsShape(formats: seq<Format>, containerMimeType: Option<string>,
                                              out: ExtractorOutput, ids: IdScheme, g0: nat, n: nat)
    requires n <= |formats|
    ensures var all := CreatedEvents(formats, containerMimeType, out, ids, g0, n);
      |all| == 2 * n &&
      (forall i :: 0 <= i < n ==> all[2 * i] == TrackCreated(ids.trackIdOf(g0 + i), TRACK_TYPE_TEXT)) &&
      (forall i :: 0 <= i < n ==>
         all[2 * i + 1] ==
           ToSink(SendFormat(Real(out.Track(ids.trackIdOf(g0 + i), TRACK_TYPE_TEXT)),
                             ChannelFormat(formats[i], containerMimeType, ChannelFormatId(formats[i], ids.formatIdOf(g0 + i))))))
  {
    if n > 0 {
      CreatedEventsShape(formats, containerMimeType, out, ids, g0, n - 1);
      var prev := CreatedEvents(formats, containerMimeType, out, ids, g0, n - 1);
      var all := CreatedEvents(formats, containerMimeType, out, ids, g0, n);
      assert all == prev + ChannelEvents(formats[n - 1], containerMimeType, out, ids, g0 + n - 1);
      forall i | 0 <= i < n - 1
        ensures all[2 * i] == prev[2 * i] && all[2 * i + 1] == prev[2 * i + 1]
      {
      }
    }
  }

  /** The calls for one more channel follow those already made. */
  lemma CreatedEventsStep(formats: seq<Format>, containerMimeType: Option<string>, out: ExtractorOutput,
                          ids: IdScheme, g0: nat, n: nat)
    requires n < |formats|
    ensures CreatedEvents(formats, containerMimeType, out, ids, g0, n + 1) ==
            CreatedEvents(formats, containerMimeType, out, ids, g0, n) +
            ChannelEvents(formats[n], containerMimeType, out, ids, g0 + n)
  {
  }

  /** The first rejected channel is the one after an accepted prefix. */
  lemma {:induction false} FirstInvalidAt(formats: seq<Format>, i: nat)
    requires i < |formats| && !IsCaptionMimeType(formats[i].sampleMimeType)
    requires forall j :: 0 <= j < i ==> IsCaptionMimeType(formats[j].sampleMimeType)
    ensures FirstInvalid(formats) == i
  {
    if i > 0 {
      FirstInvalidAt(formats[1..], i - 1);
    }
  }

  /** The outputs array as `createTracks` leaves it after accepting channels
      0 to n-1: each holds the output for the generator's (g0+j)-th id, and
      the rest are as they were (`before`). */
  ghost predicate Filled(formats: seq<Format>, out: ExtractorOutput, ids: IdScheme, g0: nat,
                         before: seq<Option<SinkId>>, outs: seq<Option<SinkId>>, n: nat)
  {
    n <= |outs| == |formats| && |before| == |outs| &&
    (forall j :: 0 <= j < n ==> IsCaptionMimeType(formats[j].sampleMimeType)) &&
    (forall j :: 0 <= j < n ==> outs[j] == Some(out.Track(ids.trackIdOf(g0 + j), TRACK_TYPE_TEXT))) &&
    (forall j :: n <= j < |outs| ==> outs[j] == before[j])
  }

  /** Accepting channel n fills slot n and nothing else. */
  lemma FilledStep(formats: seq<Format>, out: ExtractorOutput, ids: IdScheme, g0: nat,
                   before: seq<Option<SinkId>>, outs: seq<Option<SinkId>>, n: nat)
    requires Filled(formats, out, ids, g0, before, outs, n) && n < |outs|
    requires IsCaptionMimeType(formats[n].sampleMimeType)
    ensures Filled(formats, out, ids, g0, before,
                   outs[n := Some(out.Track(ids.trackIdOf(g0 + n), TRACK_TYPE_TEXT))], n + 1)
  {
  }

  class SeiReader {
    const closedCaptionFormats: seq<Format>
    const containerMimeType: Option<string>
    /** The TrackOutput of each channel, once created. */
    const outputs: array<Option<SinkId>>
    /** The calls made so far on the re-ordering queue. */
    var queueOps: seq<QueueOp>

    constructor (closedCaptionFormats: seq<Format>, containerMimeType: Option<string>)
      ensures this.closedCaptionFormats == closedCaptionFormats && this.containerMimeType == containerMimeType
      ensures fresh(outputs) && outputs.Length == |closedCaptionFormats|
      ensures forall i :: 0 <= i < outputs.Length ==> outputs[i].None?
      ensures queueOps == []
    {
      this.closedCaptionFormats := closedCaptionFormats;
      this.containerMimeType := containerMimeType;
      outputs := new Option<SinkId>[|closedCaptionFormats|](_ => None);
      queueOps := [];
    }

    ghost predicate Valid()
      reads this
    {
      outputs.Length == |closedCaptionFormats|
    }

    /** `createTracks(extractorOutput, idGenerator)`: for each channel in
        turn, a new id and a text track; then the MIME check, which stops
        the loop with an argument error at the first rejected channel; then
        the channel's format. */
    method CreateTracks(extractorOutput: ExtractorOutput, idGenerator: TrackIdGenerator)
      returns (r: Result<()>, events: seq<OutputEvent>)
      requires Valid()
      modifies outputs, idGenerator
      ensures r.Ok? <==> FirstInvalid(closedCaptionFormats) == |closedCaptionFormats|
      ensures r.Fail? ==>
        var k := FirstInvalid(closedCaptionFormats);
        r.error == IllegalArgument("Invalid closed caption MIME type provided: " +
                                   JavaString(closedCaptionFormats[k].sampleMimeType)) &&
        idGenerator.generated == old(idGenerator.generated) + k + 1 &&
        events == CreatedEvents(closedCaptionFormats, containerMimeType, extractorOutput, idGenerator.scheme, old(idGenerator.generated), k) +
                  [TrackCreated(idGenerator.scheme.trackIdOf(old(idGenerator.generated) + k), TRACK_TYPE_TEXT)]
      ensures r.Ok? ==>
        idGenerator.generated == old(idGenerator.generated) + |closedCaptionFormats| &&
        events == CreatedEvents(closedCaptionFormats, containerMimeType, extractorOutput, idGenerator.scheme, old(idGenerator.generated), |closedCaptionFormats|)
      ensures forall i :: 0 <= i < FirstInvalid(closedCaptionFormats) ==>
        outputs[i] == Some(extractorOutput.Track(idGenerator.scheme.trackIdOf(old(idGenerator.generated) + i), TRACK_TYPE_TEXT))
      ensures forall i :: FirstInvalid(closedCaptionFormats) <= i < outputs.Length ==> outputs[i] == old(outputs[i])
    {
      var stop;
      stop, events := CreateTrackLoop(extractorOutput, idGenerator);
      if stop < outputs.Length {
        FirstInvalidAt(closedCaptionFormats, stop);
        r := Fail(IllegalArgument("Invalid closed caption MIME type provided: " +
                                  JavaString(closedCaptionFormats[stop].sampleMimeType)));
      } else {
        FirstInvalidIsFirst(closedCaptionFormats);
        r := Ok(());
      }
    }

    /** The loop of `createTracks`, which ends at channel `stop`: the first
        rejected one, or the number of channels. */
    method CreateTrackLoop(extractorOutput: ExtractorOutput, idGenerator: TrackIdGenerator)
      returns (stop: nat, events: seq<OutputEvent>)
      requires Valid()
      modifies outputs, idGenerator
      ensures stop <= outputs.Length
      ensures forall j :: 0 <= j < stop ==> IsCaptionMimeType(closedCaptionFormats[j].sampleMimeType)
      ensures stop < outputs.Length ==> !IsCaptionMimeType(closedCaptionFormats[stop].sampleMimeType)
      ensures idGenerator.generated == old(idGenerator.generated) + stop + (if stop < outputs.Length then 1 else 0)
      ensures stop < outputs.Length ==>
        events == CreatedEvents(closedCaptionFormats, containerMimeType, extractorOutput, idGenerator.scheme, old(idGenerator.generated), stop) +
                  [TrackCreated(idGenerator.scheme.trackIdOf(old(idGenerator.generated) + stop), TRACK_TYPE_TEXT)]
      ensures stop == outputs.Length ==>
        events == CreatedEvents(closedCaptionFormats, containerMimeType, extractorOutput, idGenerator.scheme, old(idGenerator.generated), stop)
      ensures forall j :: 0 <= j < stop ==>
        outputs[j] == Some(extractorOutput.Track(idGenerator.scheme.trackIdOf(old(idGenerator.generated) + j), TRACK_TYPE_TEXT))
      ensures forall j :: stop <= j < outputs.Length ==> outputs[j] == old(outputs[j])
    {
      ghost var g0 := idGenerator.generated;
      ghost var before := outputs[..];
      events := [];
      var i := 0;
      while i < outputs.Length
        invariant i <= outputs.Length
        invariant Filled(closedCaptionFormats, extractorOutput, idGenerator.scheme, g0, before, outputs[..], i)
        invariant idGenerator.generated == g0 + i
        invariant events == CreatedEvents(closedCaptionFormats, containerMimeType, extractorOutput,
                                          idGenerator.scheme, g0, i)
      {
        ghost var outs := outputs[..];
        var accepted, channelEvents := CreateTrack(i, extractorOutput, idGenerator);
        events := events + channelEvents;
        if !accepted {
          return i, events;
        }
        CreatedEventsStep(closedCaptionFormats, containerMimeType, extractorOutput,
                          idGenerator.scheme, g0, i);
        FilledStep(closedCaptionFormats, extractorOutput, idGenerator.scheme, g0, before, outs, i);
        i := i + 1;
      }
      stop := i;
    }

    /** One turn of the `createTracks` loop: the calls for channel `i` and
        the slot it fills. */
    method CreateTrack(i: nat, extractorOutput: ExtractorOutput, idGenerator: TrackIdGenerator)
      returns (accepted: bool, events: seq<OutputEvent>)
      requires Valid() && i < outputs.Length
      modifies outputs, idGenerator
      ensures idGenerator.generated == old(idGenerator.generated) + 1
      ensures accepted <==> IsCaptionMimeType(closedCaptionFormats[i].sampleMimeType)
      ensures accepted ==>
        events == ChannelEvents(closedCaptionFormats[i], containerMimeType, extractorOutput, idGenerator.scheme, old(idGenerator.generated)) &&
        outputs[..] == old(outputs[..])[i := Some(extractorOutput.Track(idGenerator.scheme.trackIdOf(old(idGenerator.generated)),
                                                                        TRACK_TYPE_TEXT))]
      ensures !accepted ==>
        events == [TrackCreated(idGenerator.scheme.trackIdOf(old(idGenerator.generated)), TRACK_TYPE_TEXT)] &&
        outputs[..] == old(outputs[..])
    {
      idGenerator.GenerateNewId();
      var trackId := idGenerator.TrackId();
      var output := extractorOutput.Track(trackId, TRACK_TYPE_TEXT);
      var created := TrackCreated(trackId, TRACK_TYPE_TEXT);
      var channelFormat := closedCaptionFormats[i];
      if !IsCaptionMimeType(channelFormat.sampleMimeType) {
        return false, [created];
      }
      var formatId := ChannelFormatId(channelFormat, idGenerator.FormatId());
      events := [created, ToSink(SendFormat(Real(output), ChannelFormat(channelFormat, containerMimeType, formatId)))];
      outputs[i] := Some(output);
      accepted := true;
    }

    /** `setReorderingQueueSize(size)`. */
    method SetReorderingQueueSize(reorderingQueueSize: int)
      modifies this
      ensures queueOps == old(queueOps) + [SetMaxSize(reorderingQueueSize)]
    {
      queueOps := queueOps + [SetMaxSize(reorderingQueueSize)];
    }

    /** `consume(pesTimeUs, seiBuffer)`. */
    method Consume(pesTimeUs: int, seiBuffer: seq<bv8>)
      modifies this
      ensures queueOps == old(queueOps) + [Add(pesTimeUs, seiBuffer)]
    {
      queueOps := queueOps + [Add(pesTimeUs, seiBuffer)];
    }

    /** `flush()`. */
    method Flush()
      modifies this
      ensures queueOps == old(queueOps) + [FlushQueue]
    {
      queueOps := queueOps + [FlushQueue];
    }

    /** `clear()`, as written: the same queue call as `flush()`. */
    method Clear()
      modifies this
      ensures queueOps == old(queueOps) + [FlushQueue]
    {
      queueOps := queueOps + [FlushQueue];
    }
  }
}
