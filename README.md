# Chunk extraction and track binding, modelled in Dafny

This project models the chunk-extraction layer of an Android media player
library, plus the small stateful readers and caches around it:

- **BundledChunkExtractor** wraps one container `Extractor` and reuses it
  across the chunks of a stream.
  - The first `init` initializes the extractor. Every later `init` seeks it
    and rebinds each per-track `BindingTrackOutput` to the new chunk's
    `TrackOutputProvider` and window end.
  - A binding drops samples at or past the window end.
  - The nested `Factory` chooses the container extractor from the
    representation's container MIME type.
- **BaseMediaChunkOutput** hands each track the sample queue registered for
  its track type, and fans out write indices and sample offsets over the
  queues.
- **InitializationChunk** loads a chunk's initialization data. Loads can be
  resumed and cancelled, and the source is closed on every exit path.
- **OggExtractor** sniffs the first Ogg page and selects a FLAC, Vorbis or
  Opus stream reader. It then sets up its single audio track, exactly once.
- **PassthroughSectionPayloadReader** passes each transport-stream section
  through as one key-frame metadata sample. It re-announces its format only
  when the timestamp offset changes.
- **SeiReader** creates one closed-caption track per CEA-608/708 channel and
  hands SEI buffers to a re-ordering queue.
- **DefaultDrmSessionManagerProvider** caches the `DrmSessionManager` built
  for the most recent DRM configuration.

Each Java class whose fields change becomes a Dafny `class` with those
fields, `modifies` clauses on its methods and a `Valid()` invariant where one
exists. Pure parts become functions: the factory's dispatch, the Ogg sniff
decision and the consume step of the section reader.

Collaborators whose code is not part of this model are handled as follows:

- **Pure collaborators** become parameters: `Format.withManifestFormatInfo`,
  the subtitle parser factory, `MimeTypes.isText`/`isMatroska`, and the three
  `verifyBitstreamType` probes. So do the answers of reading collaborators:
  the wrapped extractor's `read` result, the `TimestampAdjuster`'s readings
  and the scripted outcome of each `ChunkExtractor.read`.
- **Calls to collaborators** are returned as traces, checked in order: calls
  on a `TrackOutput` (`SinkCall`), on an `ExtractorOutput` (`OutputEvent`),
  on the wrapped extractor (`ExtractorCall`), on a stream reader (`OggEvent`),
  on the data source (`LoadEvent`) and on the re-ordering queue (`QueueOp`).
- **`TrackOutput`s handed out by `track(id, type)`** are named by the call
  that produced them (`SinkId`). The discarding output is the `Discard`
  case of `Sink`.

The modules are:

| file | module |
|---|---|
| common.dfy | `Common`: Option/Result, exceptions, the library constants, `Format`, sinks, `TsPayloadReader.TrackIdGenerator` |
| sparse_arrays.dfy | `SparseArrays`: `android.util.SparseArray` as a key-sorted sequence |
| extractor_factory.dfy | `ExtractorFactory`: `BundledChunkExtractor.Factory` |
| bundled_chunk.dfy | `BundledChunk`: `BundledChunkExtractor` and `BindingTrackOutput` |
| chunk_output.dfy | `ChunkOutput`: `BaseMediaChunkOutput` |
| init_chunk.dfy | `InitChunk`: `InitializationChunk` |
| ogg.dfy | `Ogg`: `OggExtractor` |
| passthrough.dfy | `Passthrough`: `PassthroughSectionPayloadReader` |
| sei.dfy | `Sei`: `SeiReader` |
| drm.dfy | `Drm`: `DefaultDrmSessionManagerProvider` |

The following constants come from the media library's published values,
because the classes that define them are not part of this model:

- `C.TIME_UNSET` is `Long.MIN_VALUE + 1`.
- The track types are audio 1, video 2, text 3, image 4 and metadata 5.
- `C.BUFFER_FLAG_KEY_FRAME` is 1.
- `Format.OFFSET_SAMPLE_RELATIVE` is `Long.MAX_VALUE`.
- `Format.NO_VALUE` is -1.
- The `Format.Builder` defaults are in `Common.EMPTY_FORMAT`.
- The JPEG and PNG file signatures 0xFFD8 and 0x8950 are recorded as
  constants, from `JpegExtractor` and `PngExtractor`. The modelled code
  never reads them.

## Where the model follows the code rather than the documentation

- **Trimming is by arrival, not by time.** Once a binding has switched to
  its discarding output, every later sample is dropped until the next
  `bind`, even one before the window end (`BundledChunk.DiscardIsSticky`,
  `BundledChunk.EarlySampleAfterLateIsDropped`). "Every sample before the
  window end reaches the sink" holds only when sample times do not decrease
  (`BundledChunk.TrimMonotoneTimes`).
- **`SeiReader.clear` flushes.** It makes the same queue call as `flush`
  (`flush()` on the queue). It does not drop the buffered entries without
  delivering them.
- **A failed open still changes nothing else.** When `dataSource.open`
  throws in `InitializationChunk.load`, the inner `finally` never runs. The
  resume position and the chunk index keep their old values, and the
  source is still closed.
- **Sniffing after a reader is set replaces it.** Calling
  `OggExtractor.sniff` again can replace the stream reader even after it
  was set up. The setup flag stays set, so the replacement is never
  initialized, and later reads go to it all the same. Each reader carries
  the number of its creation, so the model tells the replacement from the
  reader it replaced.
## Model

| member | source | states |
|---|---|---|
| ExtractorFactory.NewFactory | videoPlayerLib/src/main/java/com/example/videoplayer/exoplayer/source/chunk/BundledChunkExtractor.java:64-66 | A new factory holds the given default subtitle parser factory, parses subtitles after decoding, and parses no codec within a group of pictures. |
| ExtractorFactory.GetOutputTextFormat | videoPlayerLib/src/main/java/com/example/videoplayer/exoplayer/source/chunk/BundledChunkExtractor.java:101-116 | The format is returned unchanged unless parsing during extraction is on and the parser factory supports it. A rewritten format has the cues MIME type, the codecs string "sample MIME type, then a space and the old codecs if any", the sample-relative offset and the parser factory's cue replacement behaviour, and keeps every other field. |
| ExtractorFactory.OutputTextFormatCases | videoPlayerLib/src/main/java/com/example/videoplayer/exoplayer/source/chunk/BundledChunkExtractor.java:101-116 | With parsing during extraction off, every format is returned unchanged. Any format that does change is a cues format whose samples carry absolute times. |
| ExtractorFactory.CreateProgressiveMediaExtractor | videoPlayerLib/src/main/java/com/example/videoplayer/exoplayer/source/chunk/BundledChunkExtractor.java:120-169 | The result is null exactly for a text container while subtitles are parsed after decoding. Otherwise it wraps an extractor with the given primary track type and representation format. |
| ExtractorFactory.DispatchOrder | videoPlayerLib/src/main/java/com/example/videoplayer/exoplayer/source/chunk/BundledChunkExtractor.java:127-167 | Each extractor kind is chosen exactly when every earlier test fails and its own test passes: text, then Matroska, then JPEG, then PNG, else fragmented MP4. Matroska always disables seek-for-cues and emits raw subtitles iff parsing is off. JPEG gets FLAG_READ_IMAGE. MP4 gets the emsg flag, raw subtitles iff parsing is off, the codecs setting, the caption formats and the emsg output. |
| ExtractorFactory.ParsingSettingKeepsContainerChoice | videoPlayerLib/src/main/java/com/example/videoplayer/exoplayer/source/chunk/BundledChunkExtractor.java:138-167 | For a non-text container, switching subtitle parsing on or off never changes which extractor kind is chosen. It only flips the raw-subtitle option. |
| BundledChunk.BundledChunkExtractor.constructor | videoPlayerLib/src/main/java/com/example/videoplayer/exoplayer/source/chunk/BundledChunkExtractor.java:199-205 | Stores the primary track type and manifest format. It starts with no bindings, an uninitialized extractor, no provider, no seek map and no sample formats. |
| BundledChunk.BundledChunkExtractor.GetChunkIndex | videoPlayerLib/src/main/java/com/example/videoplayer/exoplayer/source/chunk/BundledChunkExtractor.java:211-213 | The index is present exactly when the reported seek map is a ChunkIndex, and then it is that index. |
| BundledChunk.BundledChunkExtractor.Init | videoPlayerLib/src/main/java/com/example/videoplayer/exoplayer/source/chunk/BundledChunkExtractor.java:222-238 | Stores the provider and window end, and the extractor is initialized afterwards. The first call makes extractor.init, then a seek to (0, start) only if start is set, and rebinds nothing. A later call only seeks, to 0 when start is unset, and rebinds every binding in SparseArray order. Init's own code adds or removes no binding. |
| BundledChunk.ExtractorInitializedOnce | videoPlayerLib/src/main/java/com/example/videoplayer/exoplayer/source/chunk/BundledChunkExtractor.java:226-233 | Over any run of init calls the wrapped extractor is initialized exactly once (by the first call, on a fresh instance). Every seek is to position 0, and none is to TIME_UNSET. |
| BundledChunk.BundledChunkExtractor.RebindBindings | videoPlayerLib/src/main/java/com/example/videoplayer/exoplayer/source/chunk/BundledChunkExtractor.java:234-236 | The loop leaves binding i as the i-th rebound view, and forwards exactly the format re-sends of the bindings, in order. |
| BundledChunk.RebindAll | videoPlayerLib/src/main/java/com/example/videoplayer/exoplayer/source/chunk/BundledChunkExtractor.java:234-236 | Rebinding acts on every binding in place and in order, and keeps the number of bindings. |
| BundledChunk.RebindKeepsFormats | videoPlayerLib/src/main/java/com/example/videoplayer/exoplayer/source/chunk/BundledChunkExtractor.java:304-313 | Rebinding keeps each binding's id, type, manifest format and stored format. With no provider, every binding discards, keeps its old window end, and nothing is re-sent. With a provider, each binding forwards to provider.track(id, type) with the new window end. |
| BundledChunk.BindingTrackOutput.constructor | videoPlayerLib/src/main/java/com/example/videoplayer/exoplayer/source/chunk/BundledChunkExtractor.java:297-302 | A new binding has its id, type and manifest format, no stored format, no sink, and window end 0. |
| BundledChunk.BindingTrackOutput.Bind | videoPlayerLib/src/main/java/com/example/videoplayer/exoplayer/source/chunk/BundledChunkExtractor.java:304-314 | A null provider selects the discarding output and leaves the window end as it was. A provider sets the window end, takes its sink from provider.track(id, type), and re-sends the stored format there iff there is one. |
| BundledChunk.BindingTrackOutput.SetFormat | videoPlayerLib/src/main/java/com/example/videoplayer/exoplayer/source/chunk/BundledChunkExtractor.java:317-321 | Stores the manifest-merged format when a manifest format exists and the raw format otherwise, and forwards exactly what it stored to the current sink. Sink and window are unchanged. |
| BundledChunk.BindingTrackOutput.SampleData | videoPlayerLib/src/main/java/com/example/videoplayer/exoplayer/source/chunk/BundledChunkExtractor.java:330-333 | Bytes from a buffer go to the current sink with their length, always as the main part: the given sample data part is dropped. |
| BundledChunk.BindingTrackOutput.SampleDataFromInput | videoPlayerLib/src/main/java/com/example/videoplayer/exoplayer/source/chunk/BundledChunkExtractor.java:323-328 | A read from an input is passed to the current sink with its length and allowEndOfInput, always as the main part, and the sink's answer is returned unchanged. |
| BundledChunk.BindingTrackOutput.SampleMetadata | videoPlayerLib/src/main/java/com/example/videoplayer/exoplayer/source/chunk/BundledChunkExtractor.java:336-345 | A sample at or past a set window end switches the binding to the discarding output before the call is forwarded. An earlier sample keeps the sink. The time, flags, size, offset and crypto data are forwarded unchanged. |
| BundledChunk.DiscardIsSticky | videoPlayerLib/src/main/java/com/example/videoplayer/exoplayer/source/chunk/BundledChunkExtractor.java:342-345 | A binding that discards sends every later sample, whatever its time, to the discarding output. |
| BundledChunk.TrimKeepsLeadingRun | videoPlayerLib/src/main/java/com/example/videoplayer/exoplayer/source/chunk/BundledChunkExtractor.java:342-345 | A bound binding forwards exactly the samples before the first late one, and discards that one and all after it. |
| BundledChunk.FirstLateIsFirst | videoPlayerLib/src/main/java/com/example/videoplayer/exoplayer/source/chunk/BundledChunkExtractor.java:342 | FirstLate is the least index of a sample at or past the window end. With non-decreasing times every sample from it on is late. |
| BundledChunk.TrimMonotoneTimes | videoPlayerLib/src/main/java/com/example/videoplayer/exoplayer/source/chunk/BundledChunkExtractor.java:342-345 | With non-decreasing sample times, a sample reaches the downstream sink iff it is before the window end. |
| BundledChunk.EarlySampleAfterLateIsDropped | videoPlayerLib/src/main/java/com/example/videoplayer/exoplayer/source/chunk/BundledChunkExtractor.java:342-345 | With window end 5000, samples at 5000 then 4999 are both discarded: trimming is by arrival. |
| BundledChunk.BundledChunkExtractor.Read | videoPlayerLib/src/main/java/com/example/videoplayer/exoplayer/source/chunk/BundledChunkExtractor.java:246-250 | A SEEK result is a state error. Any other result is "true iff CONTINUE". |
| BundledChunk.BundledChunkExtractor.Track | videoPlayerLib/src/main/java/com/example/videoplayer/exoplayer/source/chunk/BundledChunkExtractor.java:255-268 | A known id returns its binding and changes nothing. A new id after endTracks is a state error and changes nothing. A new id before it gets a fresh binding under that id, with the manifest format iff its type is the primary type, bound to the current provider and window. Every other field is unchanged. |
| BundledChunk.BundledChunkExtractor.EndTracks | videoPlayerLib/src/main/java/com/example/videoplayer/exoplayer/source/chunk/BundledChunkExtractor.java:271-277 | Succeeds iff every binding has a format, and then fixes the sample formats to one per binding in binding order. Otherwise it is a state error that leaves the sample formats as they were. Bindings are unchanged. |
| BundledChunk.SampleFormatsOf | videoPlayerLib/src/main/java/com/example/videoplayer/exoplayer/source/chunk/BundledChunkExtractor.java:272-275 | One format per binding, and the i-th is binding i's stored format. |
| BundledChunk.BundledChunkExtractor.SetSeekMap | videoPlayerLib/src/main/java/com/example/videoplayer/exoplayer/source/chunk/BundledChunkExtractor.java:280-282 | Stores the seek map and changes nothing else. |
| SparseArrays.GetFindsKeys | videoPlayerLib/src/main/java/com/example/videoplayer/exoplayer/source/chunk/BundledChunkExtractor.java:256 | In a key-sorted array, get finds a value iff the key is present, and then it is the value stored beside that key. |
| SparseArrays.PutNewKeys | videoPlayerLib/src/main/java/com/example/videoplayer/exoplayer/source/chunk/BundledChunkExtractor.java:265 | Putting a new key adds one entry and exactly that key. |
| SparseArrays.PutNewEntries | videoPlayerLib/src/main/java/com/example/videoplayer/exoplayer/source/chunk/BundledChunkExtractor.java:265 | Putting a new key keeps every old entry, and adds the new one once. |
| SparseArrays.PutSorted | videoPlayerLib/src/main/java/com/example/videoplayer/exoplayer/source/chunk/BundledChunkExtractor.java:265 | Put keeps the keys strictly ascending, so valueAt(i) still walks ids in ascending order. |
| SparseArrays.PutNewGet | videoPlayerLib/src/main/java/com/example/videoplayer/exoplayer/source/chunk/BundledChunkExtractor.java:265 | After putting a new key, get finds the new value under it and the old value under every other key. |
| ChunkOutput.BaseMediaChunkOutput.constructor | videoPlayerLib/src/main/java/com/example/videoplayer/exoplayer/source/chunk/BaseMediaChunkOutput.java:42-45 | Stores the track types and sample queues as given. |
| ChunkOutput.FirstIndexOf | videoPlayerLib/src/main/java/com/example/videoplayer/exoplayer/source/chunk/BaseMediaChunkOutput.java:49-53 | Finds the least index whose type equals the one asked for, and is absent iff the type is not registered. |
| ChunkOutput.BaseMediaChunkOutput.Track | videoPlayerLib/src/main/java/com/example/videoplayer/exoplayer/source/chunk/BaseMediaChunkOutput.java:48-56 | Returns the queue of the smallest index with the asked type, whatever the id. An unmatched type gets a new discarding output, not an error. A match past the end of the queue array is an index error, which cannot happen when the arrays are parallel. No state changes. |
| ChunkOutput.BaseMediaChunkOutput.GetWriteIndices | videoPlayerLib/src/main/java/com/example/videoplayer/exoplayer/source/chunk/BaseMediaChunkOutput.java:59-65 | Returns a new array as long as the queue array, whose element i is queue i's write index. |
| ChunkOutput.BaseMediaChunkOutput.SetSampleOffsetUs | videoPlayerLib/src/main/java/com/example/videoplayer/exoplayer/source/chunk/BaseMediaChunkOutput.java:71-75 | Every queue gets the same offset, and each keeps its write index. |
| InitChunk.InitializationChunk.constructor | videoPlayerLib/src/main/java/com/example/videoplayer/exoplayer/source/chunk/InitializationChunk.java:53-70 | Stores the data spec. It starts with no provider, no chunk index, resume position 0 and not cancelled. |
| InitChunk.InitializationChunk.Init | videoPlayerLib/src/main/java/com/example/videoplayer/exoplayer/source/chunk/InitializationChunk.java:79-81 | Stores the provider and changes nothing else. |
| InitChunk.InitializationChunk.CancelLoad | videoPlayerLib/src/main/java/com/example/videoplayer/exoplayer/source/chunk/InitializationChunk.java:86-88 | Sets the cancel flag and changes nothing else. No operation ever clears the flag. |
| InitChunk.Subrange | videoPlayerLib/src/main/java/com/example/videoplayer/exoplayer/source/chunk/InitializationChunk.java:99 | The range opened by a load starts at the resume offset within the chunk's range and ends where that range ends, or stays unbounded. |
| InitChunk.ReadLoopStopsAtFirstStop | videoPlayerLib/src/main/java/com/example/videoplayer/exoplayer/source/chunk/InitializationChunk.java:105 | A cancelled chunk makes no read. Otherwise reads run until the first one that returns false, throws, or is overtaken by a cancel, since the flag is checked only between reads. The input advances by what those reads consumed. |
| InitChunk.InitializationChunk.Load | videoPlayerLib/src/main/java/com/example/videoplayer/exoplayer/source/chunk/InitializationChunk.java:92-113 | Calls extractor.init with both times unset only when the resume position is 0. Opens the subrange at that offset. If the open fails, it closes the source and changes nothing. Otherwise it runs the read loop, then saves position minus spec position and the extractor's chunk index whether or not a read threw, closes the source on every path, and passes any exception on. A chunk canceled before the load opens and closes the source, makes no read and keeps its resume position. |
| InitChunk.InitializationChunk.GetChunkIndex | videoPlayerLib/src/main/java/com/example/videoplayer/exoplayer/source/chunk/InitializationChunk.java:119-122 | Returns the chunk index captured when the last read loop ended. |
| Ogg.OggExtractor.constructor | videoPlayerLib/src/main/java/com/example/videoplayer/extractor/ogg/OggExtractor.java:42-44 | Starts with no output, no stream reader and no reader set up. |
| Ogg.SelectReader | videoPlayerLib/src/main/java/com/example/videoplayer/extractor/ogg/OggExtractor.java:101-110 | Probes run FLAC, then Vorbis, then Opus. The first that accepts names the reader, and none accepting means no reader. |
| Ogg.VerificationWindow | videoPlayerLib/src/main/java/com/example/videoplayer/extractor/ogg/OggExtractor.java:97-99 | The probes see exactly the first min(bodySize, 8) peeked bytes. Fewer bytes available is an EOF error. |
| Ogg.SniffNeedsBeginningOfStream | videoPlayerLib/src/main/java/com/example/videoplayer/extractor/ogg/OggExtractor.java:91-111 | Sniffing accepts only a populated page with bit 0x02 of the header type set, and then yields the first accepting probe on the window. An unpopulated page, or one with the bit clear, yields false. |
| Ogg.SniffStep | videoPlayerLib/src/main/java/com/example/videoplayer/extractor/ogg/OggExtractor.java:91-111 | A selecting sniff installs a newly created reader of the selected kind, distinct from the current one. A rejection or a failure changes nothing. Output and setup flag are never touched. |
| Ogg.OggExtractor.SniffInternal | videoPlayerLib/src/main/java/com/example/videoplayer/extractor/ogg/OggExtractor.java:91-111 | The new state and the answer are those of one sniff step. |
| Ogg.OggExtractor.Sniff | videoPlayerLib/src/main/java/com/example/videoplayer/extractor/ogg/OggExtractor.java:47-53 | Every ParserException from sniffing, a malformed container included, becomes false and is never thrown. Other exceptions pass through, and the reader is updated as by sniffInternal. |
| Ogg.OggExtractor.Init | videoPlayerLib/src/main/java/com/example/videoplayer/extractor/ogg/OggExtractor.java:56-58 | Stores the output and changes nothing else. |
| Ogg.OggExtractor.Seek | videoPlayerLib/src/main/java/com/example/videoplayer/extractor/ogg/OggExtractor.java:61-65 | Forwards the seek to the stream reader when there is one, and otherwise does nothing. |
| Ogg.OggExtractor.Read | videoPlayerLib/src/main/java/com/example/videoplayer/extractor/ogg/OggExtractor.java:73-89 | The new state, result and calls are those of one read step of the old state. |
| Ogg.ReadCases | videoPlayerLib/src/main/java/com/example/videoplayer/extractor/ogg/OggExtractor.java:73-89 | A read before init is a state error. Without a reader, a failed sniff is "Failed to determine bitstream type" with nothing changed, and a successful one resets the peek position first. The first read with a reader makes exactly these calls in order: the peek reset if it sniffed, audio track 0, endTracks, the reader's init with that track, and the reader's read. Later reads only call the reader's read. Every successful read returns the reader's result. |
| Ogg.ResniffSkipsSetup | videoPlayerLib/src/main/java/com/example/videoplayer/extractor/ogg/OggExtractor.java:47-88 | A selecting sniff after setup installs a different reader but keeps the setup flag, so the next read only calls the new reader's read and initializes nothing. |
| Ogg.ReplacementReaderIsNeverInitialized | videoPlayerLib/src/main/java/com/example/videoplayer/extractor/ogg/OggExtractor.java:47-111 | From a fresh extractor: a read sets up reader 0 and reads it, a second sniff installs reader 1, and the next read calls read on reader 1 without any init. |
| Ogg.ReaderInitializedOnce | videoPlayerLib/src/main/java/com/example/videoplayer/extractor/ogg/OggExtractor.java:82-87 | Over any run of reads the stream reader is set up at most once, and never again once it has been. |
| Passthrough.InitialFormat | videoPlayerLib/src/main/java/com/example/videoplayer/extractor/ts/PassthroughSectionPayloadReader.java:48-54 | The starting format has exactly the given container and sample MIME types, and every other field is the builder default. |
| Passthrough.PassthroughSectionPayloadReader.constructor | videoPlayerLib/src/main/java/com/example/videoplayer/extractor/ts/PassthroughSectionPayloadReader.java:48-54 | Starts with the initial format, no adjuster and no output. |
| Passthrough.PassthroughSectionPayloadReader.Init | videoPlayerLib/src/main/java/com/example/videoplayer/extractor/ts/PassthroughSectionPayloadReader.java:57-67 | Takes exactly one new id, creates a metadata track under it, and announces the current format on it at once. |
| Passthrough.PassthroughSectionPayloadReader.Consume | videoPlayerLib/src/main/java/com/example/videoplayer/extractor/ts/PassthroughSectionPayloadReader.java:70-90 | Before init it is a state error and the format is unchanged. After init the calls and the new format are those of one consume step on the adjuster's readings. |
| Passthrough.ConsumeCases | videoPlayerLib/src/main/java/com/example/videoplayer/extractor/ts/PassthroughSectionPayloadReader.java:72-84 | An unknown timestamp or offset produces no call and keeps the format. Otherwise the format takes the offset and is re-sent iff the offset changed, so there are exactly three calls or two. Then all remaining bytes follow as main-part as sample data, and key-frame metadata with that size, offset 0, the adjusted time and no crypto data. |
| Passthrough.RepeatedOffsetIsQuiet | videoPlayerLib/src/main/java/com/example/videoplayer/extractor/ts/PassthroughSectionPayloadReader.java:78-81 | A second section with the same offset re-sends no format and leaves the format unchanged. |
| Sei.SeiReader.constructor | mylibrary/src/main/java/com/example/videoplayer/extractor/ts/SeiReader.java:45-53 | The outputs array is new, has one empty slot per caption format, and the queue has had no calls. |
| Sei.FirstInvalidIsFirst | mylibrary/src/main/java/com/example/videoplayer/extractor/ts/SeiReader.java:60-64 | A channel list is accepted in full iff every channel has a CEA-608 or CEA-708 MIME type. |
| Sei.ChannelFormatFields | mylibrary/src/main/java/com/example/videoplayer/extractor/ts/SeiReader.java:66-75 | The announced format has the given id, the reader's container MIME type, and the channel's sample MIME type, selection flags, language, accessibility channel and initialization data. Every other field is the builder default. |
| Sei.CreatedEventsShape | mylibrary/src/main/java/com/example/videoplayer/extractor/ts/SeiReader.java:56-76 | Channel i makes calls 2i and 2i+1: a text track under the generator's (g0+i)-th id, then that channel's format on that track. |
| Sei.SeiReader.CreateTracks | mylibrary/src/main/java/com/example/videoplayer/extractor/ts/SeiReader.java:55-78 | Succeeds iff every channel MIME type is accepted. On success it takes one id per channel. On failure it takes k+1 ids, where k is the first rejected channel, fails with "Invalid closed caption MIME type provided: " plus Java's string of that MIME type, and makes the calls of the accepted channels plus the k-th track creation. Slots before k hold the created outputs and the rest are unchanged. |
| Sei.SeiReader.CreateTrackLoop | mylibrary/src/main/java/com/example/videoplayer/extractor/ts/SeiReader.java:56-77 | The loop stops at the first rejected channel or at the end, with the ids, calls and filled slots of the channels before it. |
| Sei.SeiReader.CreateTrack | mylibrary/src/main/java/com/example/videoplayer/extractor/ts/SeiReader.java:57-76 | Takes exactly one new id and creates a text track. An accepted channel announces its format, whose id is the channel's own if set and otherwise the generator's, and fills its slot. A rejected one makes no other call and fills nothing. |
| Sei.SeiReader.SetReorderingQueueSize | mylibrary/src/main/java/com/example/videoplayer/extractor/ts/SeiReader.java:84-86 | Forwards exactly one setMaxSize to the queue. |
| Sei.SeiReader.Consume | mylibrary/src/main/java/com/example/videoplayer/extractor/ts/SeiReader.java:88-90 | Forwards exactly one add of the buffer at its time to the queue. |
| Sei.SeiReader.Flush | mylibrary/src/main/java/com/example/videoplayer/extractor/ts/SeiReader.java:97-99 | Forwards exactly one flush to the queue. |
| Sei.SeiReader.Clear | mylibrary/src/main/java/com/example/videoplayer/extractor/ts/SeiReader.java:102-104 | As written, makes the same single flush call on the queue as flush(). |
| Drm.DefaultDrmSessionManagerProvider.constructor | videoPlayerLib/src/main/java/com/example/videoplayer/exoplayer/drm/DefaultDrmSessionManagerProvider.java:48-50 | Starts with an empty cache and no settings. |
| Drm.DefaultDrmSessionManagerProvider.SetDrmHttpDataSourceFactory | videoPlayerLib/src/main/java/com/example/videoplayer/exoplayer/drm/DefaultDrmSessionManagerProvider.java:59-61 | Stores the factory and changes nothing else. |
| Drm.DefaultDrmSessionManagerProvider.SetDrmUserAgent | videoPlayerLib/src/main/java/com/example/videoplayer/exoplayer/drm/DefaultDrmSessionManagerProvider.java:69-71 | Stores the user agent and changes nothing else. |
| Drm.DefaultDrmSessionManagerProvider.SetDrmLoadErrorHandlingPolicy | videoPlayerLib/src/main/java/com/example/videoplayer/exoplayer/drm/DefaultDrmSessionManagerProvider.java:81-83 | Stores the policy and changes nothing else. |
| Drm.DefaultDrmSessionManagerProvider.CreateManager | videoPlayerLib/src/main/java/com/example/videoplayer/exoplayer/drm/DefaultDrmSessionManagerProvider.java:103-130 | A new manager for the configuration. It uses the set HTTP factory, or a default one with the user agent, and the set load-error policy. |
| Drm.CachedAfter | videoPlayerLib/src/main/java/com/example/videoplayer/exoplayer/drm/DefaultDrmSessionManagerProvider.java:89-98 | A get that builds stores the item's configuration, which differs from the old one. Every other get leaves the cached configuration as it was. |
| Drm.DefaultDrmSessionManagerProvider.Get | videoPlayerLib/src/main/java/com/example/videoplayer/exoplayer/drm/DefaultDrmSessionManagerProvider.java:86-101 | An item without a local configuration fails. No DRM configuration returns DRM_UNSUPPORTED and keeps the cache. A configuration equal to the cached one returns the cached manager. A differing or first one builds exactly one new manager from the current settings and replaces both cache fields. Any successful non-sentinel result is a manager, never null. |
| Drm.CacheHoldsLastConfiguration | videoPlayerLib/src/main/java/com/example/videoplayer/exoplayer/drm/DefaultDrmSessionManagerProvider.java:95-98 | After any run of get calls, the cache holds the last configuration asked for. |
| Drm.CreatedCountIsChanges | videoPlayerLib/src/main/java/com/example/videoplayer/exoplayer/drm/DefaultDrmSessionManagerProvider.java:95-98 | A run of get calls builds exactly one manager per change of the configuration asked for. |
| Drm.GetTwiceBuildsOnce | videoPlayerLib/src/main/java/com/example/videoplayer/exoplayer/drm/DefaultDrmSessionManagerProvider.java:95-99 | A second get for the same item never builds, so two gets build at most one manager. |
| Drm.AlternatingConfigurationsRebuild | videoPlayerLib/src/main/java/com/example/videoplayer/exoplayer/drm/DefaultDrmSessionManagerProvider.java:95-98 | With distinct configurations A and B, asking A, B, A from an empty cache builds three managers. |

## Left out

- `BundledChunkExtractor.release`, `getSampleFormats` and `OggExtractor.release` are one-line delegations or field reads with no logic. The sample formats are the `sampleFormats` field itself.
- `Factory.setSubtitleParserFactory`, `experimentalParseSubtitlesDuringExtraction` and `experimentalSetCodecsToParseWithinGopSampleDependencies` are plain field setters on a value. The factory is a datatype, and a setter is a field update of it.
- The container extractors (Matroska, fragmented MP4, subtitle, JPEG, PNG) are not part of this model. The factory's result only names which one is built and with which options, not what it parses. The conversion of the codecs setting to MP4 flags is kept as the setting itself.
- `MimeTypes.isText`, `isMatroska`, `SubtitleParser.Factory`, `Format.withManifestFormatInfo` and the FLAC/Vorbis/Opus `verifyBitstreamType` probes are not part of this model. They are functions passed in, with no properties assumed.
- `Format` keeps only the fields the modelled code reads or writes.
- Byte input and output are reduced:
  - `DataSource.open` and `DefaultExtractorInput` become an open outcome and a read position.
  - `DataSourceUtil.closeQuietly` is a `SourceClosed` event.
  - The contents of `OggPageHeader.populate` become a header, a "not populated" answer or an exception.
  - Where bytes are passed through, only their count is kept: sample data, SEI buffers as byte sequences, section data as its `bytesLeft()`.
- `InitChunk.InitializationChunk.Load`: each `ChunkExtractor.read` is a scripted step (bytes consumed, outcome, cancel during the call). A script that runs out is read as `read` returning false.
- Concurrency: `synchronized (lock)` in the DRM provider, the `volatile loadCanceled` flag and `@GuardedBy` are modelled sequentially. A cancel from another thread is the step's "cancel during" flag, seen between reads.
- Java `long`/`int` overflow is not modelled: positions, offsets and times are unbounded integers, and the arithmetic in the source never wraps for realistic media.
- `TsPayloadReader.TrackIdGenerator` is not part of this model. Its numbering is an arbitrary `IdScheme` (the track id and the format id of the k-th generated id). The model proves the order and count of ids taken, not their values.
- TrackOutputs handed out by `TrackOutputProvider.track` and `ExtractorOutput.track` are named by the call that produced them. Two names may denote one object, and the model does not identify them.
- The peek position of `ExtractorInput` is not modelled in `OggExtractor`. Sniffing reads the page it is given, and the model does not state that `sniff` peeks without consuming input. `resetPeekPosition` is recorded as a `PeekReset` call.
- Callbacks made from inside a call into the wrapped extractor are not modelled as nested. During `extractor.init(this)`, `seek` and `read`, the extractor may call `track`, `endTracks` or `seekMap` on the `BundledChunkExtractor`, and may call the binding methods. The model treats these as separate calls (`Track`, `EndTracks`, `SetSeekMap`, `BindingTrackOutput.*`) made after the outer call returns. For example, the fragmented MP4 extractor creates its emsg and caption tracks inside `init`.
- `CryptoData` is known only by identity. Its scheme, key and pattern are passed through and never read.
- `StreamReader.init/seek/read` and the extractor's `read` are returned as calls with the answer given as a parameter. The parsing they do is not part of this model.
- `ReorderingBufferQueue` and `CeaUtil.consume` are not part of this model. No ordering or eviction policy is assumed, and the model records the calls made on the queue in order.
- `TimestampAdjuster` internals are not part of this model. Its two readings at the time of `consume` are a parameter.
- `Drm.DefaultDrmSessionManagerProvider.CreateManager`: the builder chain is not modelled. That chain covers `HttpMediaDrmCallback`, the license request headers, the UUID and `FrameworkMediaDrm` provider, multi-session and clear-content settings, and `setMode` with the key set id. The manager is a new object that records the configuration, the HTTP data source choice and the load-error policy it was built from.
- `Log.e` in `BaseMediaChunkOutput.track` is I/O and is dropped.
- `ChunkOutput.BaseMediaChunkOutput.Track`: the discarding output is a `NewDiscarding` result with no identity. The model does not state that each call creates a distinct one.
- The Android UI activities, `LoudnessCodecController`, `RenderersFactory`, `MediaSourceFactory` and `ImageDecoderException` are outside the extraction layer and are not modelled.
