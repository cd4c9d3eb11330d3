/** OggExtractor: sniffs the first Ogg page, picks the stream reader for
    the codec found in it, and hands reads on to that reader once the single
    audio track is set up. */
module Ogg {
  import opened Common

  /** How many bytes of the first page body the probes may look at. */
  const MAX_VERIFICATION_BYTES: nat := 8

  /** The beginning-of-stream bit of `header_type_flag` (section 6 of
      RFC 3533). */
  const BOS_FLAG: bv8 := 0x02

  /** The StreamReader implementations a probe can select. */
  datatype StreamReaderKind = FlacReader | VorbisReader | OpusReader

  /** A StreamReader object: its kind, and its place among the readers the
      extractor has created, which tells two readers of one kind apart. */
  datatype StreamReader = StreamReader(kind: StreamReaderKind, instance: nat)

  /** The fields of an OggPageHeader that sniffing reads. */
  datatype PageHeader = PageHeader(headerType: bv8, bodySize: nat)

  /** What `OggPageHeader.populate(input, true)` yields: a header, false, or
      an exception of the input. */
  datatype PagePeek = Populated(header: PageHeader) | NotPopulated | PeekFails(error: Error)

  /** The input as sniffing sees it: the page header at the peek position
      and the bytes that can be peeked after it. */
  datatype SniffInput = SniffInput(page: PagePeek, body: seq<bv8>)

  /** FlacReader, VorbisReader and OpusReader `verifyBitstreamType`. */
  datatype Probes = Probes(flac: seq<bv8> -> bool, vorbis: seq<bv8> -> bool, opus: seq<bv8> -> bool)

  /** A call the extractor makes on a collaborator. */
  datatype OggEvent =
    | Output(event: OutputEvent)
    | ReaderInit(reader: StreamReader, trackOutput: SinkId)
    | ReaderSeek(reader: StreamReader, position: int, timeUs: int)
    | ReaderRead(reader: StreamReader)
    | PeekReset

  function Min(a: nat, b: nat): nat {
    if a <= b then a else b
  }

  /** The reader of the first probe, in the order FLAC, Vorbis, Opus, that
      accepts the window. */
  function SelectReader(p: Probes, window: seq<bv8>): (r: Option<StreamReaderKind>)
    ensures r == Some(FlacReader) <==> p.flac(window)
    ensures r == Some(VorbisReader) <==> !p.flac(window) && p.vorbis(window)
    ensures r == Some(OpusReader) <==> !p.flac(window) && !p.vorbis(window) && p.opus(window)
    ensures r.None? <==> !p.flac(window) && !p.vorbis(window) && !p.opus(window)
  {
    if p.flac(window) then Some(FlacReader)
    else if p.vorbis(window) then Some(VorbisReader)
    else if p.opus(window) then Some(OpusReader)
    else None
  }

  /** The bytes the probes see, or the EOFException of `peekFully`. */
  function VerificationWindow(h: PageHeader, body: seq<bv8>): (r: Result<seq<bv8>>)
    ensures r.Ok? <==> Min(h.bodySize, MAX_VERIFICATION_BYTES) <= |body|
    ensures r.Ok? ==> |r.value| <= MAX_VERIFICATION_BYTES && |r.value| <= h.bodySize
    ensures r.Ok? ==> r.value == body[..Min(h.bodySize, MAX_VERIFICATION_BYTES)]
    ensures r.Fail? ==> r.error == EndOfInput
  {
    var length := Min(h.bodySize, MAX_VERIFICATION_BYTES);
    if length <= |body| then Ok(body[..length]) else Fail(EndOfInput)
  }

  /** `sniffInternal(input)`: Ok(None) for false, Ok(Some(kind)) for true
      with the kind of reader it creates. */
  function SniffOutcome(p: Probes, input: SniffInput): Result<Option<StreamReaderKind>> {
    match input.page
    case PeekFails(e) => Fail(e)
    case NotPopulated => Ok(None)
    case Populated(h) =>
      if h.headerType & BOS_FLAG != BOS_FLAG then Ok(None)
      else
        var window := VerificationWindow(h, input.body);
        if window.Fail? then Fail(window.error) else Ok(SelectReader(p, window.value))
  }

  /** Sniffing accepts only a populated first page with the
      beginning-of-stream bit set, and then whatever reader the first
      accepting probe names. */
  lemma SniffNeedsBeginningOfStream(p: Probes, input: SniffInput)
    ensures SniffOutcome(p, input).Ok? && SniffOutcome(p, input).value.Some? ==>
      input.page.Populated? && input.page.header.headerType & BOS_FLAG == BOS_FLAG &&
      var length := Min(input.page.header.bodySize, MAX_VERIFICATION_BYTES);
      length <= |input.body| &&
      SniffOutcome(p, input).value == SelectReader(p, input.body[..length])
    ensures input.page.NotPopulated? ==> SniffOutcome(p, input) == Ok(None)
    ensures input.page.Populated? && input.page.header.headerType & BOS_FLAG == 0 ==>
      SniffOutcome(p, input) == Ok(None)
  {
  }

  /** The exceptions that are ParserExceptions. */
  predicate IsParserException(e: Error) {
    e == ParserFailure || e.MalformedContainer?
  }

  /** The extractor's fields as a value; `readersCreated` counts the
      StreamReader objects sniffing has created. */
  datatype OggState = OggState(output: Option<ExtractorOutput>, streamReader: Option<StreamReader>,
                               streamReaderInitialized: bool, readersCreated: nat)

  /** A reader is set up only after a reader was chosen and init was called;
      the current reader is one of those created. */
  ghost predicate StateValid(s: OggState) {
    (s.streamReaderInitialized ==> s.streamReader.Some? && s.output.Some?) &&
    (s.streamReader.Some? ==> s.streamReader.value.instance < s.readersCreated)
  }

  datatype SniffEffect = SniffEffect(next: OggState, result: Result<bool>)

  /** `sniffInternal(input)` on state `s`. A selecting sniff installs a new
      reader object, distinct from every reader created before; a
      rejection or a failure changes nothing. The output and the setup flag
      are never touched. */
  function SniffStep(s: OggState, p: Probes, input: SniffInput): (e: SniffEffect)
    ensures StateValid(s) ==> StateValid(e.next)
    ensures e.next.output == s.output && e.next.streamReaderInitialized == s.streamReaderInitialized
    ensures e.result == Ok(true) <==> SniffOutcome(p, input).Ok? && SniffOutcome(p, input).value.Some?
    ensures e.result == Ok(true) ==>
      e.next.streamReader == Some(StreamReader(SniffOutcome(p, input).value.value, s.readersCreated)) &&
      e.next.readersCreated == s.readersCreated + 1 &&
      (StateValid(s) ==> e.next.streamReader != s.streamReader)
    ensures e.result != Ok(true) ==> e.next == s
    ensures e.result.Fail? <==> SniffOutcome(p, input).Fail?
    ensures e.result.Fail? ==> e.result.error == SniffOutcome(p, input).error
  {
    var o := SniffOutcome(p, input);
    if o.Fail? then SniffEffect(s, Fail(o.error))
    else if o.value.None? then SniffEffect(s, Ok(false))
    else SniffEffect(s.(streamReader := Some(StreamReader(o.value.value, s.readersCreated)),
                        readersCreated := s.readersCreated + 1), Ok(true))
  }

  datatype ReadEffect = ReadEffect(next: OggState, result: Result<int>, events: seq<OggEvent>)

  /** `read(input, seekPosition)`, when the stream reader's own `read` would
      answer `readerResult`. */
  function ReadStep(s: OggState, p: Probes, input: SniffInput, readerResult: int): ReadEffect {
    if s.output.None? then ReadEffect(s, Fail(IllegalState), [])
    else
      var sniffed := if s.streamReader.Some? then SniffEffect(s, Ok(true)) else SniffStep(s, p, input);
      if sniffed.result.Fail? then ReadEffect(s, Fail(sniffed.result.error), [])
      else if !sniffed.result.value then
        ReadEffect(s, Fail(MalformedContainer("Failed to determine bitstream type")), [])
      else
        var t := sniffed.next;
        var reader := t.streamReader.value;
        var reset := if s.streamReader.None? then [PeekReset] else [];
        var setup :=
          if t.streamReaderInitialized then []
          else [Output(TrackCreated(0, TRACK_TYPE_AUDIO)), Output(TracksEnded),
                ReaderInit(reader, t.output.value.Track(0, TRACK_TYPE_AUDIO))];
        ReadEffect(t.(streamReaderInitialized := true), Ok(readerResult),
                   reset + setup + [ReaderRead(reader)])
  }

  /** One read: it fails before `init`; without a reader it sniffs, and a
      failed sniff is a malformed container with nothing changed; the first
      read with a reader resets the peek position if it sniffed, then
      creates audio track 0, ends the tracks and initializes the reader with
      that track, in that order; later reads only read. */
  lemma ReadCases(s: OggState, p: Probes, input: SniffInput, readerResult: int)
    requires StateValid(s)
    ensures var e := ReadStep(s, p, input, readerResult);
      StateValid(e.next) && e.next.output == s.output &&
      (s.output.None? ==> e.result == Fail(IllegalState) && e.next == s && e.events == []) &&
      (s.output.Some? && s.streamReader.None? && SniffOutcome(p, input) == Ok(None) ==>
         e.result == Fail(MalformedContainer("Failed to determine bitstream type")) && e.next == s) &&
      (e.result.Ok? <==> s.output.Some? &&
                         (s.streamReader.Some? || (SniffOutcome(p, input).Ok? && SniffOutcome(p, input).value.Some?))) &&
      (e.result.Ok? ==>
         e.result.value == readerResult && e.next.streamReaderInitialized && e.next.streamReader.Some? &&
         (s.streamReader.Some? ==> e.next.streamReader == s.streamReader) &&
         (s.streamReader.None? ==>
            e.next.streamReader == Some(StreamReader(SniffOutcome(p, input).value.value, s.readersCreated))) &&
         (s.streamReaderInitialized ==> e.events == [ReaderRead(e.next.streamReader.value)]) &&
         (!s.streamReaderInitialized ==>
            e.events == (if s.streamReader.None? then [PeekReset] else []) +
                        [Output(TrackCreated(0, TRACK_TYPE_AUDIO)), Output(TracksEnded),
                         ReaderInit(e.next.streamReader.value, s.output.value.Track(0, TRACK_TYPE_AUDIO)),
                         ReaderRead(e.next.streamReader.value)]) &&
         CountSetups(e.events) == (if s.streamReaderInitialized then 0 else 1)) &&
      (e.result.Fail? ==> e.next == s && e.events == [])
  {
    var e := ReadStep(s, p, input, readerResult);
    if e.result.Ok? {
      var reader := e.next.streamReader.value;
      var reset := if s.streamReader.None? then [PeekReset] else [];
      if s.streamReaderInitialized {
        assert e.events == [ReaderRead(reader)];
        assert [ReaderRead(reader)][1..] == [];
      } else {
        var setup := [Output(TrackCreated(0, TRACK_TYPE_AUDIO)), Output(TracksEnded),
                      ReaderInit(reader, s.output.value.Track(0, TRACK_TYPE_AUDIO)), ReaderRead(reader)];
        assert e.events == reset + setup;
        CountSetupsAppend(reset, setup);
        assert setup[1..][1..][1..][1..] == [];
        assert CountSetups(setup[1..][1..]) == 1;
      }
    }
  }

  /** How many times a trace initializes a stream reader. */
  function CountSetups(events: seq<OggEvent>): nat {
    if |events| == 0 then 0 else (if events[0].ReaderInit? then 1 else 0) + CountSetups(events[1..])
  }

  lemma {:induction false} CountSetupsAppend(a: seq<OggEvent>, b: seq<OggEvent>)
    ensures CountSetups(a + b) == CountSetups(a) + CountSetups(b)
  {
    if |a| == 0 {
      assert a + b == b;
    } else {
      assert (a + b)[1..] == a[1..] + b;
      CountSetupsAppend(a[1..], b);
    }
  }

  /** The state and trace after a run of reads. */
  function RunReads(s: OggState, p: Probes, inputs: seq<(SniffInput, int)>): (OggState, seq<OggEvent>)
    decreases |inputs|
  {
    if |inputs| == 0 then (s, [])
    else
      var e := ReadStep(s, p, inputs[0].0, inputs[0].1);
      var rest := RunReads(e.next, p, inputs[1..]);
      (rest.0, e.events + rest.1)
  }

  /** Over any run of reads the stream reader is initialized at most once,
      and never again once it has been. */
  lemma {:induction false} ReaderInitializedOnce(s: OggState, p: Probes, inputs: seq<(SniffInput, int)>)
    requires StateValid(s)
    ensures CountSetups(RunReads(s, p, inputs).1) <= (if s.streamReaderInitialized then 0 else 1)
    ensures StateValid(RunReads(s, p, inputs).0)
    ensures s.streamReaderInitialized ==> RunReads(s, p, inputs).0.streamReaderInitialized
    decreases |inputs|
  {
    if |inputs| > 0 {
      var e := ReadStep(s, p, inputs[0].0, inputs[0].1);
      ReadCases(s, p, inputs[0].0, inputs[0].1);
      ReaderInitializedOnce(e.next, p, inputs[1..]);
      CountSetupsAppend(e.events, RunReads(e.next, p, inputs[1..]).1);
    }
  }

  /** A selecting sniff after the reader was set up installs a new reader
      but leaves the setup flag set, so the next read goes to the new reader
      and nothing ever initializes it. */
  lemma ResniffSkipsSetup(s: OggState, p: Probes, input: SniffInput, next: SniffInput, readerResult: int)
    requires StateValid(s) && s.streamReaderInitialized
    requires SniffOutcome(p, input).Ok? && SniffOutcome(p, input).value.Some?
    ensures var t := SniffStep(s, p, input).next;
      t.streamReaderInitialized && t.streamReader.Some? && t.streamReader != s.streamReader &&
      ReadStep(t, p, next, readerResult).events == [ReaderRead(t.streamReader.value)] &&
      CountSetups(ReadStep(t, p, next, readerResult).events) == 0
  {
    var t := SniffStep(s, p, input).next;
    ReadCases(t, p, next, readerResult);
  }

  /** From a fresh extractor: a read sets up reader 0; a second selecting
      sniff replaces it by reader 1; the next read reads reader 1, which was
      never initialized. */
  lemma ReplacementReaderIsNeverInitialized(out: ExtractorOutput, p: Probes, input: SniffInput, r1: int, r2: int)
    requires SniffOutcome(p, input).Ok? && SniffOutcome(p, input).value.Some?
    ensures var k := SniffOutcome(p, input).value.value;
      var e1 := ReadStep(OggState(Some(out), None, false, 0), p, input, r1);
      var t := SniffStep(e1.next, p, input).next;
      var e2 := ReadStep(t, p, input, r2);
      e1.events == [PeekReset, Output(TrackCreated(0, TRACK_TYPE_AUDIO)), Output(TracksEnded),
                    ReaderInit(StreamReader(k, 0), out.Track(0, TRACK_TYPE_AUDIO)),
                    ReaderRead(StreamReader(k, 0))] &&
      t.streamReader == Some(StreamReader(k, 1)) &&
      e2.events == [ReaderRead(StreamReader(k, 1))]
  {
    var s0 := OggState(Some(out), None, false, 0);
    ReadCases(s0, p, input, r1);
    var e1 := ReadStep(s0, p, input, r1);
    ResniffSkipsSetup(e1.next, p, input, input, r2);
  }

  class OggExtractor {
    const probes: Probes
    var output: Option<ExtractorOutput>
    var streamReader: Option<StreamReader>
    var streamReaderInitialized: bool
    var readersCreated: nat

    function State(): OggState
      reads this
    {
      OggState(output, streamReader, streamReaderInitialized, readersCreated)
    }

    constructor (probes: Probes)
      ensures this.probes == probes
      ensures State() == OggState(None, None, false, 0)
    {
      this.probes := probes;
      output := None;
      streamReader := None;
      streamReaderInitialized := false;
      readersCreated := 0;
    }

    /** `sniffInternal(input)`. */
    method SniffInternal(input: SniffInput) returns (r: Result<bool>)
      modifies this
      ensures var e := SniffStep(old(State()), probes, input);
        State() == e.next && r == e.result
    {
      var o := SniffOutcome(probes, input);
      if o.Fail? {
        return Fail(o.error);
      }
      if o.value.None? {
        return Ok(false);
      }
      streamReader := Some(StreamReader(o.value.value, readersCreated));
      readersCreated := readersCreated + 1;
      return Ok(true);
    }

    /** `sniff(input)`: every ParserException becomes false; other
        exceptions pass through. */
    method Sniff(input: SniffInput) returns (r: Result<bool>)
      modifies this
      ensures r.Fail? ==> !IsParserException(r.error)
      ensures var e := SniffStep(old(State()), probes, input);
        State() == e.next &&
        (e.result.Fail? && IsParserException(e.result.error) ==> r == Ok(false)) &&
        (e.result.Fail? && !IsParserException(e.result.error) ==> r == e.result) &&
        (e.result.Ok? ==> r == e.result)
    {
      r := SniffInternal(input);
      if r.Fail? && IsParserException(r.error) {
        r := Ok(false);
      }
    }

    /** `init(output)`. */
    method Init(output: ExtractorOutput)
      modifies this
      ensures State() == old(State()).(output := Some(output))
    {
      this.output := Some(output);
    }

    /** `seek(position, timeUs)`: passed to the reader, if there is one. */
    method Seek(position: int, timeUs: int) returns (events: seq<OggEvent>)
      ensures streamReader.None? ==> events == []
      ensures streamReader.Some? ==> events == [ReaderSeek(streamReader.value, position, timeUs)]
    {
      events := [];
      if streamReader.Some? {
        events := [ReaderSeek(streamReader.value, position, timeUs)];
      }
    }

    /** `read(input, seekPosition)`. */
    method Read(input: SniffInput, readerResult: int) returns (r: Result<int>, events: seq<OggEvent>)
      modifies this
      ensures var e := ReadStep(old(State()), probes, input, readerResult);
        State() == e.next && r == e.result && events == e.events
    {
      if output.None? {
        return Fail(IllegalState), [];
      }
      events := [];
      if streamReader.None? {
        var found := SniffInternal(input);
        if found.Fail? {
          return Fail(found.error), [];
        }
        if !found.value {
          return Fail(MalformedContainer("Failed to determine bitstream type")), [];
        }
        events := [PeekReset];
      }
      if !streamReaderInitialized {
        var trackOutput := output.value.Track(0, TRACK_TYPE_AUDIO);
        events := events + [Output(TrackCreated(0, TRACK_TYPE_AUDIO)), Output(TracksEnded),
                            ReaderInit(streamReader.value, trackOutput)];
        streamReaderInitialized := true;
      }
      events := events + [ReaderRead(streamReader.value)];
      r := Ok(readerResult);
    }
  }
}
