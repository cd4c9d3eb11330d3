/** Values shared by every component of the extraction layer: nullable and
    failing results, the media library's constants, the Format record,
    downstream sinks and the track id generator of the transport-stream
    readers. */
module Common {

  /** A Java reference that may be null. */
  datatype Option<+T> = None | Some(value: T)

  /** The outcome of a Java call that either returns a value or throws. */
  datatype Result<+T> = Ok(value: T) | Fail(error: Error)

  /** The exceptions the modelled code raises or lets escape. */
  datatype Error =
    | IllegalState                        // Assertions.checkState / checkStateNotNull
    | IllegalArgument(message: string)    // Assertions.checkArgument
    | NullArgument                        // Assertions.checkNotNull
    | MalformedContainer(message: string) // ParserException.createForMalformedContainer
    | ParserFailure                       // a ParserException raised by a collaborator
    | EndOfInput                          // java.io.EOFException (an IOException)
    | IoFailure                           // any other IOException of the byte source
    | IndexOutOfBounds                    // java.lang.ArrayIndexOutOfBoundsException

  // Java `long` bounds.
  const LONG_MIN: int := -0x8000_0000_0000_0000
  const LONG_MAX: int := 0x7FFF_FFFF_FFFF_FFFF

  /** C.TIME_UNSET: a time that is not known. */
  const TIME_UNSET: int := LONG_MIN + 1

  // C.TRACK_TYPE_* values.
  const TRACK_TYPE_AUDIO: int := 1
  const TRACK_TYPE_VIDEO: int := 2
  const TRACK_TYPE_TEXT: int := 3
  const TRACK_TYPE_IMAGE: int := 4
  const TRACK_TYPE_METADATA: int := 5

  /** TrackOutput.SAMPLE_DATA_PART_MAIN: the sample bytes themselves, as
      opposed to encryption or supplemental data. */
  const SAMPLE_DATA_PART_MAIN: int := 0

  /** C.BUFFER_FLAG_KEY_FRAME. */
  const BUFFER_FLAG_KEY_FRAME: int := 1

  /** Format.NO_VALUE. */
  const NO_VALUE: int := -1

  /** Format.OFFSET_SAMPLE_RELATIVE: sample times are already absolute. */
  const OFFSET_SAMPLE_RELATIVE: int := LONG_MAX

  /** Format.CUE_REPLACEMENT_BEHAVIOR_MERGE, the builder's default. */
  const CUE_REPLACEMENT_BEHAVIOR_MERGE: int := 1

  /** The fields of a media Format that the modelled code reads or writes. */
  datatype Format = Format(
    id: Option<string>,
    containerMimeType: Option<string>,
    sampleMimeType: Option<string>,
    codecs: Option<string>,
    selectionFlags: int,
    language: Option<string>,
    accessibilityChannel: int,
    initializationData: seq<seq<bv8>>,
    subsampleOffsetUs: int,
    cueReplacementBehavior: int)

  /** What `new Format.Builder().build()` produces. */
  const EMPTY_FORMAT: Format :=
    Format(None, None, None, None, 0, None, NO_VALUE, [], OFFSET_SAMPLE_RELATIVE,
           CUE_REPLACEMENT_BEHAVIOR_MERGE)

  /** A downstream TrackOutput: one the caller hands in, or the one a
      collaborator's `track(id, type)` returned, named by that call. A name
      stands for whatever object the call returned; two names may stand for
      the same object. */
  datatype SinkId =
    | GivenOutput(n: nat)
    | ProvidedTrack(providerId: nat, id: int, trackType: int)
    | ExtractorTrack(outputId: nat, id: int, trackType: int)

  /** The TrackOutput a binding currently forwards to: a downstream one, or
      its own DiscardingTrackOutput. */
  datatype Sink = Real(sinkId: SinkId) | Discard

  /** The encryption data of a sample (TrackOutput.CryptoData), known by
      identity; its contents are passed through, never read. */
  datatype CryptoData = CryptoData(cryptoDataId: nat)

  /** One call made on a TrackOutput. */
  datatype SinkCall =
    | SendFormat(to: Sink, format: Format)
    | SendData(to: Sink, length: int, part: int)
    | ReadData(to: Sink, length: int, allowEndOfInput: bool, part: int)
    | SendMetadata(to: Sink, timeUs: int, flags: int, size: int, offset: int, cryptoData: Option<CryptoData>)

  /** One call made on an ExtractorOutput, or on a TrackOutput it handed out. */
  datatype OutputEvent =
    | TrackCreated(id: int, trackType: int)
    | TracksEnded
    | ToSink(call: SinkCall)

  /** A ChunkExtractor.TrackOutputProvider, known by identity. */
  datatype TrackOutputProvider = TrackOutputProvider(providerId: nat) {
    /** `track(id, type)`. */
    function Track(id: int, trackType: int): SinkId {
      ProvidedTrack(providerId, id, trackType)
    }
  }

  /** An ExtractorOutput, known by identity, as far as track creation goes. */
  datatype ExtractorOutput = ExtractorOutput(outputId: nat) {
    /** `track(id, type)`. */
    function Track(id: int, trackType: int): SinkId {
      ExtractorTrack(outputId, id, trackType)
    }
  }

  /** A ChunkIndex seek table. */
  datatype ChunkIndex = ChunkIndex(sizes: seq<int>, offsets: seq<int>, durationsUs: seq<int>, timesUs: seq<int>)

  /** A SeekMap: either a ChunkIndex or some other seek map. */
  datatype SeekMap = IndexSeekMap(index: ChunkIndex) | OtherSeekMap(durationUs: int)

  /** The numbering of a TsPayloadReader.TrackIdGenerator: the track id
      and the format id of its k-th generated id, counted from 0, by the
      generator's own scheme. */
  datatype IdScheme = IdScheme(trackIdOf: nat -> int, formatIdOf: nat -> string)

  /** TsPayloadReader.TrackIdGenerator: hands out ids by its scheme, one
      per `generateNewId`. */
  class TrackIdGenerator {
    const scheme: IdScheme
    /** How many ids have been generated. */
    var generated: nat

    constructor (scheme: IdScheme)
      ensures this.scheme == scheme
      ensures generated == 0
    {
      this.scheme := scheme;
      generated := 0;
    }

    /** Advances to the next id. */
    method GenerateNewId()
      modifies this
      ensures generated == old(generated) + 1
    {
      generated := generated + 1;
    }

    /** The id generated last; only defined once an id was generated. */
    function TrackId(): int
      reads this
      requires generated > 0
    {
      scheme.trackIdOf(generated - 1)
    }

    /** The format id that goes with the id generated last. */
    function FormatId(): string
      reads this
      requires generated > 0
    {
      scheme.formatIdOf(generated - 1)
    }
  }
}
