/** BundledChunkExtractor.Factory: picks the container extractor a chunk
    stream is parsed with, from the container MIME type of its
    representation, and rewrites text formats when subtitles are parsed
    during extraction. */
module ExtractorFactory {
  import opened Common

  // MimeTypes constants the dispatch compares against.
  const IMAGE_JPEG: string := "image/jpeg"
  const IMAGE_PNG: string := "image/png"
  const APPLICATION_MEDIA3_CUES: string := "application/x-media3-cues"

  /** JpegExtractor.FLAG_READ_IMAGE. */
  const JPEG_FLAG_READ_IMAGE: int := 1

  /** The two-byte file signatures the image extractors look for: the JPEG
      start-of-image marker (section B.1.1.3 of ITU-T T.81) and the first two
      bytes of the PNG signature (section 12.12 of PNG 1.2). */
  const JPEG_FILE_SIGNATURE: int := 0xFFD8
  const PNG_FILE_SIGNATURE: int := 0x8950

  /** A SubtitleParser.Factory, as far as the chunk factory asks it. */
  datatype SubtitleParserFactory = SubtitleParserFactory(
    supportsFormat: Format -> bool,
    cueReplacementBehavior: Format -> int)

  /** MimeTypes.isText and MimeTypes.isMatroska. */
  datatype MimeClassifier = MimeClassifier(
    isText: Option<string> -> bool,
    isMatroska: Option<string> -> bool)

  /** The factory's settings. */
  datatype Factory = Factory(
    subtitleParserFactory: SubtitleParserFactory,
    parseSubtitlesDuringExtraction: bool,
    codecsToParseWithinGopSampleDependencies: int)

  /** The container extractor the factory constructs, with the options it
      passes. */
  datatype WrappedExtractor =
    | SubtitleExtractor(subtitleFormat: Format)
    | MatroskaExtractor(disableSeekForCues: bool, emitRawSubtitleData: bool)
    | JpegExtractor(flags: int)
    | PngExtractor
    | FragmentedMp4Extractor(enableEmsgTrack: bool, emitRawSubtitleData: bool,
                             codecsToParseWithinGopSampleDependencies: int,
                             closedCaptionFormats: seq<Format>,
                             playerEmsgTrackOutput: Option<SinkId>)

  /** The arguments of the BundledChunkExtractor the factory returns. */
  datatype ChunkExtractorSpec = ChunkExtractorSpec(
    extractor: WrappedExtractor,
    primaryTrackType: int,
    primaryTrackManifestFormat: Format)

  /** A fresh factory: subtitles are parsed after decoding, no codec is
      parsed within a group of pictures. */
  function NewFactory(defaultParserFactory: SubtitleParserFactory): (f: Factory)
    ensures f.subtitleParserFactory == defaultParserFactory
    ensures !f.parseSubtitlesDuringExtraction && f.codecsToParseWithinGopSampleDependencies == 0
  {
    Factory(defaultParserFactory, false, 0)
  }

  /** Java's string conversion of a nullable string. */
  function JavaString(s: Option<string>): string {
    if s.Some? then s.value else "null"
  }

  /** `getOutputTextFormat(sourceFormat)`. */
  function GetOutputTextFormat(f: Factory, source: Format): (r: Format)
    ensures !(f.parseSubtitlesDuringExtraction && f.subtitleParserFactory.supportsFormat(source)) ==>
      r == source
    ensures f.parseSubtitlesDuringExtraction && f.subtitleParserFactory.supportsFormat(source) ==>
      r.sampleMimeType == Some(APPLICATION_MEDIA3_CUES) &&
      r.codecs == Some(JavaString(source.sampleMimeType) +
                       (if source.codecs.Some? then " " + source.codecs.value else "")) &&
      r.subsampleOffsetUs == OFFSET_SAMPLE_RELATIVE &&
      r.cueReplacementBehavior == f.subtitleParserFactory.cueReplacementBehavior(source) &&
      r.id == source.id && r.containerMimeType == source.containerMimeType &&
      r.selectionFlags == source.selectionFlags && r.language == source.language &&
      r.accessibilityChannel == source.accessibilityChannel &&
      r.initializationData == source.initializationData
  {
    if f.parseSubtitlesDuringExtraction && f.subtitleParserFactory.supportsFormat(source) then
      source.(sampleMimeType := Some(APPLICATION_MEDIA3_CUES),
              cueReplacementBehavior := f.subtitleParserFactory.cueReplacementBehavior(source),
              codecs := Some(JavaString(source.sampleMimeType) +
                             (if source.codecs.Some? then " " + source.codecs.value else "")),
              subsampleOffsetUs := OFFSET_SAMPLE_RELATIVE)
    else
      source
  }

  /** `createProgressiveMediaExtractor(...)`: null for a text container when
      subtitles are parsed after decoding, otherwise the extractor for the
      container type wrapped in a BundledChunkExtractor. */
  function CreateProgressiveMediaExtractor(
    f: Factory, mime: MimeClassifier, primaryTrackType: int, representationFormat: Format,
    enableEventMessageTrack: bool, closedCaptionFormats: seq<Format>,
    playerEmsgTrackOutput: Option<SinkId>): (r: Option<ChunkExtractorSpec>)
    ensures r.None? <==>
      mime.isText(representationFormat.containerMimeType) && !f.parseSubtitlesDuringExtraction
    ensures r.Some? ==>
      r.value.primaryTrackType == primaryTrackType &&
      r.value.primaryTrackManifestFormat == representationFormat
  {
    var container := representationFormat.containerMimeType;
    var extractor :=
      if mime.isText(container) then
        if !f.parseSubtitlesDuringExtraction then None
        else Some(SubtitleExtractor(representationFormat))
      else if mime.isMatroska(container) then
        Some(MatroskaExtractor(true, !f.parseSubtitlesDuringExtraction))
      else if container == Some(IMAGE_JPEG) then
        Some(JpegExtractor(JPEG_FLAG_READ_IMAGE))
      else if container == Some(IMAGE_PNG) then
        Some(PngExtractor)
      else
        Some(FragmentedMp4Extractor(enableEventMessageTrack, !f.parseSubtitlesDuringExtraction,
                                    f.codecsToParseWithinGopSampleDependencies,
                                    closedCaptionFormats, playerEmsgTrackOutput));
    if extractor.None? then None
    else Some(ChunkExtractorSpec(extractor.value, primaryTrackType, representationFormat))
  }

  /** The dispatch tests text, then Matroska, then JPEG, then PNG, and sends
      everything else to the fragmented MP4 extractor; each chosen extractor
      carries the flags the settings call for. */
  lemma DispatchOrder(
    f: Factory, mime: MimeClassifier, primaryTrackType: int, representationFormat: Format,
    enableEventMessageTrack: bool, closedCaptionFormats: seq<Format>,
    playerEmsgTrackOutput: Option<SinkId>)
    ensures
      var r := CreateProgressiveMediaExtractor(f, mime, primaryTrackType, representationFormat,
                                               enableEventMessageTrack, closedCaptionFormats,
                                               playerEmsgTrackOutput);
      var c := representationFormat.containerMimeType;
      (r.Some? && r.value.extractor.SubtitleExtractor? <==>
         mime.isText(c) && f.parseSubtitlesDuringExtraction) &&
      (r.Some? && r.value.extractor.SubtitleExtractor? ==> r.value.extractor.subtitleFormat == representationFormat) &&
      (r.Some? && r.value.extractor.MatroskaExtractor? <==> !mime.isText(c) && mime.isMatroska(c)) &&
      (r.Some? && r.value.extractor.MatroskaExtractor? ==>
         r.value.extractor.disableSeekForCues &&
         (r.value.extractor.emitRawSubtitleData <==> !f.parseSubtitlesDuringExtraction)) &&
      (r.Some? && r.value.extractor.JpegExtractor? <==>
         !mime.isText(c) && !mime.isMatroska(c) && c == Some(IMAGE_JPEG)) &&
      (r.Some? && r.value.extractor.JpegExtractor? ==> r.value.extractor.flags == JPEG_FLAG_READ_IMAGE) &&
      (r.Some? && r.value.extractor.PngExtractor? <==>
         !mime.isText(c) && !mime.isMatroska(c) && c != Some(IMAGE_JPEG) && c == Some(IMAGE_PNG)) &&
      (r.Some? && r.value.extractor.FragmentedMp4Extractor? <==>
         !mime.isText(c) && !mime.isMatroska(c) && c != Some(IMAGE_JPEG) && c != Some(IMAGE_PNG)) &&
      (r.Some? && r.value.extractor.FragmentedMp4Extractor? ==>
         r.value.extractor == FragmentedMp4Extractor(enableEventMessageTrack, !f.parseSubtitlesDuringExtraction,
                                                     f.codecsToParseWithinGopSampleDependencies,
                                                     closedCaptionFormats, playerEmsgTrackOutput))
  {
  }

  /** Turning subtitle parsing on or off never changes which extractor a
      non-text container gets; it only flips the raw-subtitle option. */
  lemma ParsingSettingKeepsContainerChoice(
    f: Factory, mime: MimeClassifier, primaryTrackType: int, representationFormat: Format,
    enableEventMessageTrack: bool, closedCaptionFormats: seq<Format>,
    playerEmsgTrackOutput: Option<SinkId>)
    requires !mime.isText(representationFormat.containerMimeType)
    ensures
      var on := CreateProgressiveMediaExtractor(f.(parseSubtitlesDuringExtraction := true), mime,
                  primaryTrackType, representationFormat, enableEventMessageTrack,
                  closedCaptionFormats, playerEmsgTrackOutput);
      var off := CreateProgressiveMediaExtractor(f.(parseSubtitlesDuringExtraction := false), mime,
                  primaryTrackType, representationFormat, enableEventMessageTrack,
                  closedCaptionFormats, playerEmsgTrackOutput);
      on.Some? && off.Some? &&
      (on.value.extractor.MatroskaExtractor? <==> off.value.extractor.MatroskaExtractor?) &&
      (on.value.extractor.JpegExtractor? <==> off.value.extractor.JpegExtractor?) &&
      (on.value.extractor.PngExtractor? <==> off.value.extractor.PngExtractor?) &&
      (on.value.extractor.FragmentedMp4Extractor? <==> off.value.extractor.FragmentedMp4Extractor?) &&
      (on.value.extractor.MatroskaExtractor? || on.value.extractor.FragmentedMp4Extractor? ==>
         !on.value.extractor.emitRawSubtitleData && off.value.extractor.emitRawSubtitleData)
  {
  }

  /** With subtitle parsing off, every format leaves the factory unchanged;
      a rewritten format is always a cues format whose samples carry
      absolute times. */
  lemma OutputTextFormatCases(f: Factory, source: Format)
    ensures !f.parseSubtitlesDuringExtraction ==> GetOutputTextFormat(f, source) == source
    ensures GetOutputTextFormat(f, source) != source ==>
      GetOutputTextFormat(f, source).sampleMimeType == Some(APPLICATION_MEDIA3_CUES) &&
      GetOutputTextFormat(f, source).subsampleOffsetUs == OFFSET_SAMPLE_RELATIVE
  {
  }
}
