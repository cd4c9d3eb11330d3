/** BundledChunkExtractor: one Extractor reused across the chunks of a
    stream. Each track the extractor reports gets a BindingTrackOutput that
    forwards to the current chunk's downstream output and drops samples at or
    past the chunk's end time. */
module BundledChunk {
  import opened Common
  import opened SparseArrays

  // Extractor.read results.
  const RESULT_CONTINUE: int := 0
  const RESULT_SEEK: int := 1
  const RESULT_END_OF_INPUT: int := -1

  /** A call made on the wrapped Extractor. */
  datatype ExtractorCall = ExtractorInit | ExtractorSeek(position: int, timeUs: int)

  /** The mutable part of a BindingTrackOutput, as a value. */
  datatype BindingState = BindingState(sampleFormat: Option<Format>, trackOutput: Option<Sink>, endTimeUs: int)

  /** A binding as the orchestrator sees it: its fixed identity and its state. */
  datatype BindingView = BindingView(id: int, trackType: int, manifestFormat: Option<Format>, state: BindingState)

  /** A freshly constructed binding: no format, no sink, and Java's default 0
      for its end time. */
  const UNBOUND: BindingState := BindingState(None, None, 0)

  /** A sample at `timeUs` is past a window that ends at `endTimeUs`. */
  predicate IsLate(endTimeUs: int, timeUs: int) {
    endTimeUs != TIME_UNSET && timeUs >= endTimeUs
  }

  /** The state `bind(provider, endTimeUs)` leaves behind. */
  function Bound(s: BindingState, provider: Option<TrackOutputProvider>, id: int, trackType: int,
                 endTimeUs: int): BindingState
  {
    match provider
    case None => s.(trackOutput := Some(Discard))
    case Some(p) => s.(trackOutput := Some(Real(p.Track(id, trackType))), endTimeUs := endTimeUs)
  }

  /** What `bind` re-sends to the new sink. */
  function BindForwarded(s: BindingState, provider: Option<TrackOutputProvider>, id: int,
                         trackType: int): seq<SinkCall>
  {
    if provider.Some? && s.sampleFormat.Some?
    then [SendFormat(Real(provider.value.Track(id, trackType)), s.sampleFormat.value)]
    else []
  }

  /** The state `sampleMetadata(timeUs, ...)` leaves behind. */
  function AfterSample(s: BindingState, timeUs: int): BindingState {
    if IsLate(s.endTimeUs, timeUs) then s.(trackOutput := Some(Discard)) else s
  }

  /** The sinks a run of samples is forwarded to, one per sample. */
  function SampleSinks(s: BindingState, times: seq<int>): seq<Sink>
    requires s.trackOutput.Some?
    decreases |times|
  {
    if |times| == 0 then []
    else
      var next := AfterSample(s, times[0]);
      [next.trackOutput.value] + SampleSinks(next, times[1..])
  }

  /** The index of the first sample at or past the window end, or the length
      of the run when there is none. */
  function FirstLate(endTimeUs: int, times: seq<int>): nat {
    if |times| == 0 then 0
    else if IsLate(endTimeUs, times[0]) then 0
    else 1 + FirstLate(endTimeUs, times[1..])
  }

  ghost predicate NonDecreasing(times: seq<int>) {
    forall i, j :: 0 <= i < j < |times| ==> times[i] <= times[j]
  }

  /** Once a binding discards, every later sample is discarded, whatever its
      time, until the next `bind`. */
  lemma {:induction false} DiscardIsSticky(s: BindingState, times: seq<int>)
    requires s.trackOutput == Some(Discard)
    ensures |SampleSinks(s, times)| == |times|
    ensures forall i :: 0 <= i < |times| ==> SampleSinks(s, times)[i] == Discard
  {
    if |times| > 0 {
      DiscardIsSticky(AfterSample(s, times[0]), times[1..]);
    }
  }

  /** A binding bound to a downstream sink forwards exactly the samples before
      the first late one, and discards that one and everything after it. */
  lemma {:induction false} TrimKeepsLeadingRun(s: BindingState, times: seq<int>, sink: SinkId)
    requires s.trackOutput == Some(Real(sink))
    ensures FirstLate(s.endTimeUs, times) <= |times|
    ensures |SampleSinks(s, times)| == |times|
    ensures forall i :: 0 <= i < |times| ==>
      SampleSinks(s, times)[i] == (if i < FirstLate(s.endTimeUs, times) then Real(sink) else Discard)
  {
    if |times| > 0 {
      var next := AfterSample(s, times[0]);
      if IsLate(s.endTimeUs, times[0]) {
        DiscardIsSticky(next, times[1..]);
      } else {
        TrimKeepsLeadingRun(next, times[1..], sink);
      }
    }
  }

  /** When sample times do not decrease, exactly the samples before the
      window end reach the downstream sink. */
  lemma TrimMonotoneTimes(s: BindingState, times: seq<int>, sink: SinkId)
    requires s.trackOutput == Some(Real(sink))
    requires NonDecreasing(times)
    ensures |SampleSinks(s, times)| == |times|
    ensures forall i :: 0 <= i < |times| ==>
      (SampleSinks(s, times)[i] == Real(sink) <==> !IsLate(s.endTimeUs, times[i]))
  {
    TrimKeepsLeadingRun(s, times, sink);
    FirstLateIsFirst(s.endTimeUs, times);
  }

  /** FirstLate is the least index of a late sample; with non-decreasing
      times every sample from it on is late. */
  lemma {:induction false} FirstLateIsFirst(endTimeUs: int, times: seq<int>)
    ensures FirstLate(endTimeUs, times) <= |times|
    ensures forall i :: 0 <= i < FirstLate(endTimeUs, times) ==> !IsLate(endTimeUs, times[i])
    ensures FirstLate(endTimeUs, times) < |times| ==> IsLate(endTimeUs, times[FirstLate(endTimeUs, times)])
    ensures NonDecreasing(times) ==>
      forall i :: FirstLate(endTimeUs, times) <= i < |times| ==> IsLate(endTimeUs, times[i])
  {
    if |times| > 0 && !IsLate(endTimeUs, times[0]) {
      FirstLateIsFirst(endTimeUs, times[1..]);
      assert forall i :: 1 <= i < |times| ==> times[i] == times[1..][i - 1];
    }
  }

  /** With times that go back, a sample before the window end that follows a
      late one is still dropped: trimming is by arrival, not by time. */
  lemma EarlySampleAfterLateIsDropped()
    ensures SampleSinks(BindingState(None, Some(Real(GivenOutput(0))), 5000), [5000, 4999]) == [Discard, Discard]
  {
  }

  /** The extractor calls `init(provider, startTimeUs, endTimeUs)` makes. */
  function InitCalls(extractorInitialized: bool, startTimeUs: int): seq<ExtractorCall> {
    if !extractorInitialized then
      [ExtractorInit] + (if startTimeUs != TIME_UNSET then [ExtractorSeek(0, startTimeUs)] else [])
    else
      [ExtractorSeek(0, if startTimeUs == TIME_UNSET then 0 else startTimeUs)]
  }

  /** The extractor calls a run of `init` calls makes, one start time each. */
  function InitRunCalls(extractorInitialized: bool, startTimes: seq<int>): seq<ExtractorCall>
    decreases |startTimes|
  {
    if |startTimes| == 0 then []
    else InitCalls(extractorInitialized, startTimes[0]) + InitRunCalls(true, startTimes[1..])
  }

  function CountInits(calls: seq<ExtractorCall>): nat {
    if |calls| == 0 then 0 else (if calls[0] == ExtractorInit then 1 else 0) + CountInits(calls[1..])
  }

  lemma {:induction false} CountInitsAppend(a: seq<ExtractorCall>, b: seq<ExtractorCall>)
    ensures CountInits(a + b) == CountInits(a) + CountInits(b)
  {
    if |a| == 0 {
      assert a + b == b;
    } else {
      CountInitsAppend(a[1..], b);
      assert (a + b)[1..] == a[1..] + b;
    }
  }

  /** Over any run of `init` calls on a fresh extractor, the wrapped extractor
      is initialized exactly once (by the first), every seek is to position 0,
      and no seek is ever to TIME_UNSET. */
  lemma {:induction false} ExtractorInitializedOnce(extractorInitialized: bool, startTimes: seq<int>)
    ensures CountInits(InitRunCalls(extractorInitialized, startTimes)) ==
            (if !extractorInitialized && |startTimes| > 0 then 1 else 0)
    ensures forall c :: c in InitRunCalls(extractorInitialized, startTimes) && c.ExtractorSeek? ==>
            c.position == 0 && c.timeUs != TIME_UNSET
    decreases |startTimes|
  {
    if |startTimes| > 0 {
      ExtractorInitializedOnce(true, startTimes[1..]);
      CountInitsAppend(InitCalls(extractorInitialized, startTimes[0]), InitRunCalls(true, startTimes[1..]));
    }
  }

  /** The views after every binding was rebound. */
  function Rebound(views: seq<BindingView>, provider: Option<TrackOutputProvider>, endTimeUs: int): seq<BindingView> {
    if |views| == 0 then []
    else
      [views[0].(state := Bound(views[0].state, provider, views[0].id, views[0].trackType, endTimeUs))]
      + Rebound(views[1..], provider, endTimeUs)
  }

  /** What rebinding every binding re-sends downstream, in binding order. */
  function ReboundForwarded(views: seq<BindingView>, provider: Option<TrackOutputProvider>): seq<SinkCall> {
    if |views| == 0 then []
    else BindForwarded(views[0].state, provider, views[0].id, views[0].trackType)
         + ReboundForwarded(views[1..], provider)
  }

  lemma {:induction false} ReboundAppend(a: seq<BindingView>, x: BindingView, provider: Option<TrackOutputProvider>, endTimeUs: int)
    ensures Rebound(a + [x], provider, endTimeUs) ==
            Rebound(a, provider, endTimeUs) + [x.(state := Bound(x.state, provider, x.id, x.trackType, endTimeUs))]
    ensures ReboundForwarded(a + [x], provider) ==
            ReboundForwarded(a, provider) + BindForwarded(x.state, provider, x.id, x.trackType)
  {
    if |a| > 0 {
      assert (a + [x])[1..] == a[1..] + [x];
      ReboundAppend(a[1..], x, provider, endTimeUs);
    }
  }

  /** Rebinding rebinds every binding in place, in order, keeping its
      identity. */
  lemma {:induction false} RebindAll(views: seq<BindingView>, provider: Option<TrackOutputProvider>, endTimeUs: int)
    ensures |Rebound(views, provider, endTimeUs)| == |views|
    ensures forall i :: 0 <= i < |views| ==>
      Rebound(views, provider, endTimeUs)[i] ==
      views[i].(state := Bound(views[i].state, provider, views[i].id, views[i].trackType, endTimeUs))
  {
    if |views| > 0 {
      RebindAll(views[1..], provider, endTimeUs);
      assert forall i :: 1 <= i < |views| ==>
        Rebound(views, provider, endTimeUs)[i] == Rebound(views[1..], provider, endTimeUs)[i - 1];
      assert forall i :: 1 <= i < |views| ==> views[i] == views[1..][i - 1];
    }
  }

  /** Rebinding keeps each binding's stored format and gives each the new
      sink and window; with no provider every binding discards, keeps its
      old window, and nothing is re-sent. */
  lemma {:induction false} RebindKeepsFormats(views: seq<BindingView>, provider: Option<TrackOutputProvider>, endTimeUs: int)
    ensures |Rebound(views, provider, endTimeUs)| == |views|
    ensures forall i :: 0 <= i < |views| ==>
      var r := Rebound(views, provider, endTimeUs)[i];
      r.id == views[i].id && r.trackType == views[i].trackType && r.manifestFormat == views[i].manifestFormat &&
      r.state.sampleFormat == views[i].state.sampleFormat &&
      (provider.None? ==> r.state.trackOutput == Some(Discard) && r.state.endTimeUs == views[i].state.endTimeUs) &&
      (provider.Some? ==> r.state.trackOutput == Some(Real(provider.value.Track(r.id, r.trackType))) &&
                          r.state.endTimeUs == endTimeUs)
    ensures provider.None? ==> ReboundForwarded(views, provider) == []
  {
    RebindAll(views, provider, endTimeUs);
    if |views| > 0 {
      RebindKeepsFormats(views[1..], provider, endTimeUs);
    }
  }

  ghost predicate AllFormatted(views: seq<BindingView>) {
    forall i :: 0 <= i < |views| ==> views[i].state.sampleFormat.Some?
  }

  /** The formats `endTracks` records, one per binding in binding order. */
  function SampleFormatsOf(views: seq<BindingView>): (r: seq<Format>)
    requires AllFormatted(views)
    ensures |r| == |views|
    ensures forall i :: 0 <= i < |views| ==> Some(r[i]) == views[i].state.sampleFormat
  {
    if |views| == 0 then [] else [views[0].state.sampleFormat.value] + SampleFormatsOf(views[1..])
  }

  /** `read`'s answer for a result of the wrapped extractor's `read`. */
  function ReadOutcome(extractorResult: int): Result<bool> {
    if extractorResult == RESULT_SEEK then Fail(IllegalState)
    else Ok(extractorResult == RESULT_CONTINUE)
  }

  /** BundledChunkExtractor.BindingTrackOutput. */
  class BindingTrackOutput {
    const id: int
    const trackType: int
    const manifestFormat: Option<Format>
    /** Format.withManifestFormatInfo. */
    const withManifestFormatInfo: (Format, Format) -> Format
    var sampleFormat: Option<Format>
    var trackOutput: Option<Sink>
    var endTimeUs: int

    function State(): BindingState
      reads this
    {
      BindingState(sampleFormat, trackOutput, endTimeUs)
    }

    function View(): BindingView
      reads this
    {
      BindingView(id, trackType, manifestFormat, State())
    }

    constructor (id: int, trackType: int, manifestFormat: Option<Format>,
                 withManifestFormatInfo: (Format, Format) -> Format)
      ensures this.id == id && this.trackType == trackType && this.manifestFormat == manifestFormat
      ensures this.withManifestFormatInfo == withManifestFormatInfo
      ensures State() == UNBOUND
    {
      this.id := id;
      this.trackType := trackType;
      this.manifestFormat := manifestFormat;
      this.withManifestFormatInfo := withManifestFormatInfo;
      sampleFormat := None;
      trackOutput := None;
      endTimeUs := 0;
    }

    /** Points the binding at `provider`'s output for this track, or at the
        discarding output when there is no provider. */
    method Bind(provider: Option<TrackOutputProvider>, endTimeUs: int) returns (forwarded: seq<SinkCall>)
      modifies this
      ensures State() == Bound(old(State()), provider, id, trackType, endTimeUs)
      ensures forwarded == BindForwarded(old(State()), provider, id, trackType)
    {
      if provider.None? {
        trackOutput := Some(Discard);
        forwarded := [];
        return;
      }
      this.endTimeUs := endTimeUs;
      var sink := Real(provider.value.Track(id, trackType));
      trackOutput := Some(sink);
      forwarded := [];
      if sampleFormat.Some? {
        forwarded := [SendFormat(sink, sampleFormat.value)];
      }
    }

    /** `format(format)`: stores the format, merged with the manifest format
        when there is one, and forwards what it stored. */
    method SetFormat(format: Format) returns (forwarded: SinkCall)
      requires trackOutput.Some?
      modifies this
      ensures sampleFormat ==
        Some(if manifestFormat.Some? then withManifestFormatInfo(format, manifestFormat.value) else format)
      ensures trackOutput == old(trackOutput) && endTimeUs == old(endTimeUs)
      ensures forwarded == SendFormat(trackOutput.value, sampleFormat.value)
    {
      sampleFormat := Some(if manifestFormat.Some? then withManifestFormatInfo(format, manifestFormat.value) else format);
      forwarded := SendFormat(trackOutput.value, sampleFormat.value);
    }

    /** `sampleData(data, length, sampleDataPart)`: forwards the bytes to the
        current sink through its two-argument overload, so they always arrive
        as the main part, whatever part they came as. */
    method SampleData(length: int, sampleDataPart: int) returns (forwarded: SinkCall)
      requires trackOutput.Some?
      ensures forwarded.SendData? && forwarded.to == trackOutput.value && forwarded.length == length
      ensures forwarded.part == SAMPLE_DATA_PART_MAIN
    {
      forwarded := SendData(trackOutput.value, length, SAMPLE_DATA_PART_MAIN);
    }

    /** `sampleData(input, length, allowEndOfInput, sampleDataPart)`: asks the
        current sink to read from the input, keeping `allowEndOfInput` and
        dropping the part, and returns the sink's answer, given here as
        `sinkResult`, unchanged. */
    method SampleDataFromInput(length: int, allowEndOfInput: bool, sampleDataPart: int, sinkResult: Result<int>)
      returns (forwarded: SinkCall, r: Result<int>)
      requires trackOutput.Some?
      ensures forwarded.ReadData? && forwarded.to == trackOutput.value && forwarded.length == length
      ensures forwarded.allowEndOfInput == allowEndOfInput && forwarded.part == SAMPLE_DATA_PART_MAIN
      ensures r == sinkResult
    {
      forwarded := ReadData(trackOutput.value, length, allowEndOfInput, SAMPLE_DATA_PART_MAIN);
      r := sinkResult;
    }

    /** `sampleMetadata(...)`: a sample at or past the window end switches the
        binding to its discarding output before the call is forwarded,
        the sample's encryption data included. */
    method SampleMetadata(timeUs: int, flags: int, size: int, offset: int, cryptoData: Option<CryptoData>)
      returns (forwarded: SinkCall)
      requires trackOutput.Some?
      modifies this
      ensures State() == AfterSample(old(State()), timeUs)
      ensures IsLate(endTimeUs, timeUs) ==> trackOutput == Some(Discard)
      ensures !IsLate(endTimeUs, timeUs) ==> trackOutput == old(trackOutput)
      ensures sampleFormat == old(sampleFormat) && endTimeUs == old(endTimeUs)
      ensures forwarded == SendMetadata(trackOutput.value, timeUs, flags, size, offset, cryptoData)
    {
      if endTimeUs != TIME_UNSET && timeUs >= endTimeUs {
        trackOutput := Some(Discard);
      }
      forwarded := SendMetadata(trackOutput.value, timeUs, flags, size, offset, cryptoData);
    }
  }

  /** BundledChunkExtractor itself. */
  class BundledChunkExtractor {
    const primaryTrackType: int
    const primaryTrackManifestFormat: Format
    /** Format.withManifestFormatInfo, handed to every binding. */
    const withManifestFormatInfo: (Format, Format) -> Format
    /** The SparseArray of bindings, by ascending track id. */
    var bindingTrackOutputs: seq<(int, BindingTrackOutput)>
    var extractorInitialized: bool
    var trackOutputProvider: Option<TrackOutputProvider>
    var endTimeUs: int
    var seekMap: Option<SeekMap>
    var sampleFormats: Option<seq<Format>>

    ghost function Bindings(): set<BindingTrackOutput>
      reads this
    {
      BindingSet(bindingTrackOutputs)
    }

    static ghost function BindingSet(e: seq<(int, BindingTrackOutput)>): set<BindingTrackOutput> {
      set i | 0 <= i < |e| :: e[i].1
    }

    /** A binding sits under its own id, has been bound, and carries the
        manifest format exactly when it is of the primary track type. */
    ghost predicate EntryOk(key: int, b: BindingTrackOutput)
      reads b
    {
      b.id == key && b.trackOutput.Some? &&
      b.manifestFormat == (if b.trackType == primaryTrackType then Some(primaryTrackManifestFormat) else None)
    }

    ghost predicate Valid()
      reads this, Bindings()
    {
      Sorted(bindingTrackOutputs) &&
      forall i :: 0 <= i < |bindingTrackOutputs| ==> EntryOk(bindingTrackOutputs[i].0, bindingTrackOutputs[i].1)
    }

    /** The bindings, in SparseArray order. */
    ghost function Views(): seq<BindingView>
      reads this, Bindings()
    {
      seq(|bindingTrackOutputs|, i reads this, Bindings() requires 0 <= i < |bindingTrackOutputs| =>
        bindingTrackOutputs[i].1.View())
    }

    constructor (primaryTrackType: int, primaryTrackManifestFormat: Format,
                 withManifestFormatInfo: (Format, Format) -> Format)
      ensures Valid()
      ensures this.primaryTrackType == primaryTrackType
      ensures this.primaryTrackManifestFormat == primaryTrackManifestFormat
      ensures this.withManifestFormatInfo == withManifestFormatInfo
      ensures bindingTrackOutputs == [] && !extractorInitialized && trackOutputProvider == None
      ensures endTimeUs == 0 && seekMap == None && sampleFormats == None
    {
      this.primaryTrackType := primaryTrackType;
      this.primaryTrackManifestFormat := primaryTrackManifestFormat;
      this.withManifestFormatInfo := withManifestFormatInfo;
      bindingTrackOutputs := [];
      extractorInitialized := false;
      trackOutputProvider := None;
      endTimeUs := 0;
      seekMap := None;
      sampleFormats := None;
    }

    /** The ChunkIndex the extractor reported as its seek map, if any. */
    function GetChunkIndex(): (r: Option<ChunkIndex>)
      reads this
      ensures r.Some? <==> seekMap.Some? && seekMap.value.IndexSeekMap?
      ensures r.Some? ==> seekMap == Some(IndexSeekMap(r.value))
    {
      if seekMap.Some? && seekMap.value.IndexSeekMap? then Some(seekMap.value.index) else None
    }

    /** Starts a chunk: the first call initializes the extractor, later ones
        seek it and rebind every existing binding. Whatever the wrapped
        extractor calls back on this output from inside its `init` (`Track`,
        `EndTracks`, `SetSeekMap`) is modelled as separate calls after this
        one returns, so Init's own code adds or removes no binding. */
    method Init(provider: Option<TrackOutputProvider>, startTimeUs: int, endTimeUs: int)
      returns (calls: seq<ExtractorCall>, forwarded: seq<SinkCall>)
      requires Valid()
      modifies this, Bindings()
      ensures Valid()
      ensures bindingTrackOutputs == old(bindingTrackOutputs)
      ensures trackOutputProvider == provider && this.endTimeUs == endTimeUs && extractorInitialized
      ensures seekMap == old(seekMap) && sampleFormats == old(sampleFormats)
      ensures calls == InitCalls(old(extractorInitialized), startTimeUs)
      ensures !old(extractorInitialized) ==> Views() == old(Views()) && forwarded == []
      ensures old(extractorInitialized) ==>
        Views() == Rebound(old(Views()), provider, endTimeUs) &&
        forwarded == ReboundForwarded(old(Views()), provider)
    {
      ghost var before := Views();
      trackOutputProvider := provider;
      this.endTimeUs := endTimeUs;
      forwarded := [];
      if !extractorInitialized {
        calls := [ExtractorInit];
        if startTimeUs != TIME_UNSET {
          calls := calls + [ExtractorSeek(0, startTimeUs)];
        }
        extractorInitialized := true;
      } else {
        calls := [ExtractorSeek(0, if startTimeUs == TIME_UNSET then 0 else startTimeUs)];
        assert forall j :: 0 <= j < |before| ==> Views()[j] == before[j];
        assert Views() == before;
        forwarded := RebindBindings(provider, endTimeUs);
        ValidAfterRebind(before, provider, endTimeUs);
      }
    }

    /** Rebinding keeps every binding under its key, bound, and with its
        manifest format. */
    lemma ValidAfterRebind(before: seq<BindingView>, provider: Option<TrackOutputProvider>, endTimeUs: int)
      requires Sorted(bindingTrackOutputs) && |before| == |bindingTrackOutputs|
      requires forall i :: 0 <= i < |before| ==>
        before[i].id == bindingTrackOutputs[i].0 &&
        before[i].manifestFormat == (if before[i].trackType == primaryTrackType then Some(primaryTrackManifestFormat) else None)
      requires Views() == Rebound(before, provider, endTimeUs)
      ensures Valid()
    {
      RebindKeepsFormats(before, provider, endTimeUs);
      forall i | 0 <= i < |bindingTrackOutputs|
        ensures bindingTrackOutputs[i].1.View() == Rebound(before, provider, endTimeUs)[i]
      {
        assert Views()[i] == bindingTrackOutputs[i].1.View();
      }
    }

    /** The loop of `init` over `bindingTrackOutputs`: rebinds each binding
        in turn. */
    method RebindBindings(provider: Option<TrackOutputProvider>, endTimeUs: int) returns (forwarded: seq<SinkCall>)
      requires Sorted(bindingTrackOutputs)
      requires forall i :: 0 <= i < |bindingTrackOutputs| ==> bindingTrackOutputs[i].1.id == bindingTrackOutputs[i].0
      modifies Bindings()
      ensures Views() == Rebound(old(Views()), provider, endTimeUs)
      ensures forwarded == ReboundForwarded(old(Views()), provider)
    {
      ghost var before := Views();
      ghost var after := Rebound(before, provider, endTimeUs);
      RebindAll(before, provider, endTimeUs);
      forwarded := [];
      var i := 0;
      while i < |bindingTrackOutputs|
        invariant 0 <= i <= |bindingTrackOutputs|
        invariant forall j :: 0 <= j < |bindingTrackOutputs| ==>
          bindingTrackOutputs[j].1.View() == (if j < i then after[j] else before[j])
        invariant forwarded == ReboundForwarded(before[..i], provider)
      {
        var b := bindingTrackOutputs[i].1;
        OthersDistinct(i);
        var sent := b.Bind(provider, endTimeUs);
        ReboundAppend(before[..i], before[i], provider, endTimeUs);
        assert before[..i + 1] == before[..i] + [before[i]];
        forwarded := forwarded + sent;
        i := i + 1;
      }
      assert before[..|bindingTrackOutputs|] == before;
      assert forall j :: 0 <= j < |after| ==> Views()[j] == after[j];
    }

    /** Distinct keys hold distinct binding objects. */
    lemma OthersDistinct(i: nat)
      requires Sorted(bindingTrackOutputs) && i < |bindingTrackOutputs|
      requires forall k :: 0 <= k < |bindingTrackOutputs| ==> bindingTrackOutputs[k].1.id == bindingTrackOutputs[k].0
      ensures forall j :: 0 <= j < |bindingTrackOutputs| && j != i ==>
        bindingTrackOutputs[j].1 != bindingTrackOutputs[i].1
    {
    }

    /** `read(input)`: one step of the wrapped extractor. */
    method Read(extractorResult: int) returns (r: Result<bool>)
      ensures extractorResult == RESULT_SEEK <==> r.Fail?
      ensures r.Fail? ==> r.error == IllegalState
      ensures r.Ok? ==> (r.value <==> extractorResult == RESULT_CONTINUE)
    {
      r := ReadOutcome(extractorResult);
    }

    /** `track(id, type)`: the binding for `id`, created and bound on first
        sight; a new id after `endTracks` is a state error. */
    method Track(id: int, trackType: int) returns (r: Result<BindingTrackOutput>)
      requires Valid()
      modifies this
      ensures Valid()
      ensures extractorInitialized == old(extractorInitialized) && trackOutputProvider == old(trackOutputProvider)
      ensures endTimeUs == old(endTimeUs) && seekMap == old(seekMap) && sampleFormats == old(sampleFormats)
      ensures id in old(KeySet(bindingTrackOutputs)) ==>
        bindingTrackOutputs == old(bindingTrackOutputs) && r.Ok? &&
        Get(bindingTrackOutputs, id) == Some(r.value)
      ensures id !in old(KeySet(bindingTrackOutputs)) && old(sampleFormats).Some? ==>
        bindingTrackOutputs == old(bindingTrackOutputs) && r == Fail(IllegalState)
      ensures id !in old(KeySet(bindingTrackOutputs)) && old(sampleFormats).None? ==>
        r.Ok? && fresh(r.value) &&
        bindingTrackOutputs == Put(old(bindingTrackOutputs), id, r.value) &&
        KeySet(bindingTrackOutputs) == old(KeySet(bindingTrackOutputs)) + {id} &&
        Bindings() == old(Bindings()) + {r.value} &&
        r.value.id == id && r.value.trackType == trackType &&
        r.value.manifestFormat == (if trackType == primaryTrackType then Some(primaryTrackManifestFormat) else None) &&
        r.value.withManifestFormatInfo == withManifestFormatInfo &&
        r.value.State() == Bound(UNBOUND, trackOutputProvider, id, trackType, endTimeUs)
    {
      GetFindsKeys(bindingTrackOutputs, id);
      var existing := Get(bindingTrackOutputs, id);
      if existing.Some? {
        return Ok(existing.value);
      }
      if sampleFormats.Some? {
        return Fail(IllegalState);
      }
      var b := new BindingTrackOutput(id, trackType,
        if trackType == primaryTrackType then Some(primaryTrackManifestFormat) else None, withManifestFormatInfo);
      var sent := b.Bind(trackOutputProvider, endTimeUs);
      ghost var prior := bindingTrackOutputs;
      PutNewKeys(prior, id, b);
      bindingTrackOutputs := Put(bindingTrackOutputs, id, b);
      PutEntries(prior, id, b);
      ValidAfterPut(prior, id, b);
      r := Ok(b);
    }

    /** Inserting a bound binding under its own id keeps the array valid. */
    lemma ValidAfterPut(prior: seq<(int, BindingTrackOutput)>, id: int, b: BindingTrackOutput)
      requires Sorted(prior) && id !in KeySet(prior)
      requires forall i :: 0 <= i < |prior| ==> EntryOk(prior[i].0, prior[i].1)
      requires EntryOk(id, b)
      requires bindingTrackOutputs == Put(prior, id, b)
      ensures Valid()
    {
      PutSorted(prior, id, b);
      PutEntries(prior, id, b);
    }

    /** Every entry after inserting a new binding is the new one or an old one,
        and every old one is still there. */
    static lemma PutEntries(prior: seq<(int, BindingTrackOutput)>, id: int, b: BindingTrackOutput)
      requires id !in KeySet(prior)
      ensures forall j :: 0 <= j < |Put(prior, id, b)| ==>
        Put(prior, id, b)[j] == (id, b) || Put(prior, id, b)[j] in prior
      ensures BindingSet(Put(prior, id, b)) == BindingSet(prior) + {b}
    {
      PutNewEntries(prior, id, b);
      var r := Put(prior, id, b);
      forall j | 0 <= j < |r| ensures r[j] == (id, b) || r[j] in prior {
        assert r[j] in multiset(r);
      }
      assert (id, b) in multiset(r);
      var k :| 0 <= k < |r| && r[k] == (id, b);
      assert b in BindingSet(r);
      forall x | x in BindingSet(prior) ensures x in BindingSet(r) {
        var i :| 0 <= i < |prior| && prior[i].1 == x;
        assert prior[i] in multiset(r);
        var j :| 0 <= j < |r| && r[j] == prior[i];
      }
    }

    /** `endTracks()`: records one format per binding, in binding order; a
        binding with no format yet is a state error. */
    method EndTracks() returns (r: Result<()>)
      requires Valid()
      modifies this
      ensures Valid()
      ensures bindingTrackOutputs == old(bindingTrackOutputs) && Views() == old(Views())
      ensures extractorInitialized == old(extractorInitialized) && trackOutputProvider == old(trackOutputProvider)
      ensures endTimeUs == old(endTimeUs) && seekMap == old(seekMap)
      ensures r.Ok? <==> AllFormatted(Views())
      ensures r.Ok? ==> sampleFormats == Some(SampleFormatsOf(Views()))
      ensures r.Fail? ==> r.error == IllegalState && sampleFormats == old(sampleFormats)
    {
      ghost var vs := Views();
      var formats: seq<Format> := [];
      var i := 0;
      while i < |bindingTrackOutputs|
        invariant 0 <= i <= |bindingTrackOutputs|
        invariant AllFormatted(vs[..i])
        invariant formats == SampleFormatsOf(vs[..i])
        modifies {}
      {
        var f := bindingTrackOutputs[i].1.sampleFormat;
        assert vs[i] == bindingTrackOutputs[i].1.View();
        if f.None? {
          return Fail(IllegalState);
        }
        SampleFormatsAppend(vs[..i], vs[i]);
        assert vs[..i + 1] == vs[..i] + [vs[i]];
        formats := formats + [f.value];
        i := i + 1;
      }
      assert vs[..i] == vs;
      sampleFormats := Some(formats);
      assert forall j :: 0 <= j < |vs| ==> Views()[j] == vs[j];
      assert Views() == vs;
      r := Ok(());
    }

    static lemma {:induction false} SampleFormatsAppend(a: seq<BindingView>, x: BindingView)
      requires AllFormatted(a) && x.state.sampleFormat.Some?
      ensures AllFormatted(a + [x])
      ensures SampleFormatsOf(a + [x]) == SampleFormatsOf(a) + [x.state.sampleFormat.value]
    {
      if |a| > 0 {
        assert (a + [x])[1..] == a[1..] + [x];
        SampleFormatsAppend(a[1..], x);
      }
    }

    /** `seekMap(seekMap)`: remembers the extractor's seek map. */
    method SetSeekMap(m: SeekMap)
      requires Valid()
      modifies this
      ensures Valid()
      ensures seekMap == Some(m)
      ensures bindingTrackOutputs == old(bindingTrackOutputs) && extractorInitialized == old(extractorInitialized)
      ensures trackOutputProvider == old(trackOutputProvider) && endTimeUs == old(endTimeUs)
      ensures sampleFormats == old(sampleFormats)
    {
      seekMap := Some(m);
    }
  }
}
