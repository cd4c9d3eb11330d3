/** InitializationChunk: loads a chunk's initialization data through a
    chunk extractor, in one or more resumable loads that can be canceled
    between reads. The byte source is reduced to a read position. */
module InitChunk {
  import opened Common

  /** C.LENGTH_UNSET. */
  const LENGTH_UNSET: int := -1

  /** The range of a DataSpec. */
  datatype DataSpec = DataSpec(position: int, length: int)

  /** `dataSpec.subrange(offset)`: the same range starting `offset` bytes in. */
  function Subrange(d: DataSpec, offset: int): (r: DataSpec)
    ensures r.position == d.position + offset
    ensures d.length == LENGTH_UNSET ==> r.length == LENGTH_UNSET
    ensures d.length != LENGTH_UNSET ==> r.position + r.length == d.position + d.length
  {
    DataSpec(d.position + offset, if d.length == LENGTH_UNSET then LENGTH_UNSET else d.length - offset)
  }

  /** What one `chunkExtractor.read(input)` does: how far it advances the
      input, whether it asks for more reads, ends, or throws, and whether a
      `cancelLoad` from another thread landed while it ran. */
  datatype ReadOutcome = MoreData | NoMoreData | Throws(error: Error)
  datatype ReadStep = ReadStep(consumed: nat, outcome: ReadOutcome, cancelDuring: bool)

  /** A call the load makes on a collaborator. */
  datatype LoadEvent =
    | ExtractorInit(provider: Option<TrackOutputProvider>, startTimeUs: int, endTimeUs: int)
    | SourceOpened(spec: DataSpec)
    | ExtractorRead
    | SourceClosed

  /** How the read loop ended: how many reads it made, how many bytes they
      consumed, the cancel flag afterwards and the exception, if any. */
  datatype LoopExit = LoopExit(readCalls: nat, consumed: nat, canceled: bool, failure: Option<Error>)

  /** `while (!loadCanceled && chunkExtractor.read(input)) {}` over a script
      of reads; when the script runs out, `read` returns false without
      consuming anything. */
  function RunReads(canceled: bool, steps: seq<ReadStep>): LoopExit
    decreases |steps|
  {
    if canceled then LoopExit(0, 0, true, None)
    else if |steps| == 0 then LoopExit(1, 0, false, None)
    else
      var s := steps[0];
      match s.outcome
      case Throws(e) => LoopExit(1, s.consumed, s.cancelDuring, Some(e))
      case NoMoreData => LoopExit(1, s.consumed, s.cancelDuring, None)
      case MoreData =>
        var rest := RunReads(s.cancelDuring, steps[1..]);
        LoopExit(1 + rest.readCalls, s.consumed + rest.consumed, rest.canceled, rest.failure)
  }

  function Consumed(steps: seq<ReadStep>): nat {
    if |steps| == 0 then 0 else steps[0].consumed + Consumed(steps[1..])
  }

  lemma {:induction false} ConsumedAppend(a: seq<ReadStep>, s: ReadStep)
    ensures Consumed(a + [s]) == Consumed(a) + s.consumed
  {
    if |a| > 0 {
      assert (a + [s])[1..] == a[1..] + [s];
      ConsumedAppend(a[1..], s);
    }
  }

  /** A step after which the loop does not read again. */
  predicate Stops(s: ReadStep) {
    !s.outcome.MoreData? || s.cancelDuring
  }

  /** The read loop: a canceled load makes no read; otherwise the loop reads
      until the first read that returns false, throws, or is overtaken by a
      cancel (the flag is looked at only between reads), and the input
      advances by what those reads consumed. */
  lemma {:induction false} ReadLoopStopsAtFirstStop(canceled: bool, steps: seq<ReadStep>)
    ensures var r := RunReads(canceled, steps);
      (canceled ==> r.readCalls == 0 && r.consumed == 0 && r.canceled && r.failure.None?) &&
      (!canceled ==> 1 <= r.readCalls <= |steps| + 1) &&
      (forall i :: 0 <= i < r.readCalls - 1 ==> i < |steps| && !Stops(steps[i])) &&
      (r.readCalls > 0 && r.readCalls <= |steps| && !canceled ==>
         Stops(steps[r.readCalls - 1]) && r.consumed == Consumed(steps[..r.readCalls]) &&
         r.canceled == steps[r.readCalls - 1].cancelDuring &&
         r.failure == (if steps[r.readCalls - 1].outcome.Throws? then Some(steps[r.readCalls - 1].outcome.error) else None)) &&
      (r.readCalls == |steps| + 1 ==> r.consumed == Consumed(steps) && !r.canceled && r.failure.None?)
    decreases |steps|
  {
    if !canceled && |steps| > 0 {
      var t := steps[1..];
      assert steps[..1][1..] == [];
      if steps[0].outcome.MoreData? && !steps[0].cancelDuring {
        ReadLoopStopsAtFirstStop(false, t);
        var rest := RunReads(false, t);
        assert forall i :: 1 <= i < |steps| ==> steps[i] == t[i - 1];
        if rest.readCalls <= |t| {
          assert steps[..rest.readCalls + 1][1..] == t[..rest.readCalls];
        }
      }
    }
  }

  /** InitializationChunk. */
  class InitializationChunk {
    const dataSpec: DataSpec
    var trackOutputProvider: Option<TrackOutputProvider>
    var chunkIndex: Option<ChunkIndex>
    var nextLoadPosition: int
    var loadCanceled: bool

    constructor (dataSpec: DataSpec)
      ensures this.dataSpec == dataSpec
      ensures trackOutputProvider == None && chunkIndex == None
      ensures nextLoadPosition == 0 && !loadCanceled
    {
      this.dataSpec := dataSpec;
      trackOutputProvider := None;
      chunkIndex := None;
      nextLoadPosition := 0;
      loadCanceled := false;
    }

    /** `init(provider)`: remembers the provider for the extractor. */
    method Init(provider: TrackOutputProvider)
      modifies this
      ensures trackOutputProvider == Some(provider)
      ensures chunkIndex == old(chunkIndex) && nextLoadPosition == old(nextLoadPosition)
      ensures loadCanceled == old(loadCanceled)
    {
      trackOutputProvider := Some(provider);
    }

    /** `cancelLoad()`: sets the flag; nothing else changes and nothing
        clears it. */
    method CancelLoad()
      modifies this
      ensures loadCanceled
      ensures trackOutputProvider == old(trackOutputProvider) && chunkIndex == old(chunkIndex)
      ensures nextLoadPosition == old(nextLoadPosition)
    {
      loadCanceled := true;
    }

    /** `getChunkIndex()`: the index captured when the last read loop ended. */
    function GetChunkIndex(): (r: Option<ChunkIndex>)
      reads this
      ensures r == chunkIndex
    {
      chunkIndex
    }

    /** `load()`. The extractor is initialized only on a load that starts
        from the beginning. Opening the source may fail; `steps` scripts the
        reads, and `indexAtExit` is what the extractor reports as its chunk
        index once the loop ends. */
    method Load(openResult: Result<()>, steps: seq<ReadStep>, indexAtExit: Option<ChunkIndex>)
      returns (r: Result<()>, events: seq<LoadEvent>)
      modifies this
      ensures trackOutputProvider == old(trackOutputProvider)
      ensures var start := if old(nextLoadPosition) == 0
                           then [ExtractorInit(old(trackOutputProvider), TIME_UNSET, TIME_UNSET)] else [];
              var openCall := SourceOpened(Subrange(dataSpec, old(nextLoadPosition)));
              if openResult.Fail? then
                r == openResult && events == start + [openCall, SourceClosed] &&
                nextLoadPosition == old(nextLoadPosition) && chunkIndex == old(chunkIndex) &&
                loadCanceled == old(loadCanceled)
              else
                var x := RunReads(old(loadCanceled), steps);
                events == start + [openCall] + seq(x.readCalls, _ => ExtractorRead) + [SourceClosed] &&
                nextLoadPosition == old(nextLoadPosition) + x.consumed &&
                chunkIndex == indexAtExit &&
                loadCanceled == x.canceled &&
                (r.Fail? <==> x.failure.Some?) && (r.Fail? ==> r.error == x.failure.value)
      // A chunk canceled before the load opens and closes the source but
      // makes no read, so its resume position stays where it was.
      ensures old(loadCanceled) && openResult.Ok? ==>
        r == Ok(()) && loadCanceled && nextLoadPosition == old(nextLoadPosition) &&
        events == (if old(nextLoadPosition) == 0
                   then [ExtractorInit(old(trackOutputProvider), TIME_UNSET, TIME_UNSET)] else []) +
                  [SourceOpened(Subrange(dataSpec, old(nextLoadPosition))), SourceClosed]
    {
      events := [];
      if nextLoadPosition == 0 {
        events := [ExtractorInit(trackOutputProvider, TIME_UNSET, TIME_UNSET)];
      }
      var loadDataSpec := Subrange(dataSpec, nextLoadPosition);
      events := events + [SourceOpened(loadDataSpec)];
      if openResult.Fail? {
        // The outer `finally`: the source is closed even though it never opened.
        events := events + [SourceClosed];
        return openResult, events;
      }
      ghost var canceled0 := loadCanceled;
      ghost var prefix := events;
      var position := loadDataSpec.position;
      var k := 0;
      var readCalls := 0;
      var done := false;
      var failure: Option<Error> := None;
      while !loadCanceled && !done
        invariant 0 <= k <= |steps|
        invariant done ==>
                    RunReads(canceled0, steps) == LoopExit(readCalls, Consumed(steps[..k]), loadCanceled, failure)
        invariant !done ==>
                    failure.None? &&
                    RunReads(canceled0, steps) ==
                      (var rest := RunReads(loadCanceled, steps[k..]);
                       LoopExit(readCalls + rest.readCalls, Consumed(steps[..k]) + rest.consumed,
                                rest.canceled, rest.failure))
        invariant position == loadDataSpec.position + Consumed(steps[..k])
        invariant events == prefix + seq(readCalls, _ => ExtractorRead)
        invariant trackOutputProvider == old(trackOutputProvider) && nextLoadPosition == old(nextLoadPosition)
        invariant chunkIndex == old(chunkIndex)
        decreases |steps| - k, if done then 0 else 1
      {
        assert seq(readCalls + 1, _ => ExtractorRead) == seq(readCalls, _ => ExtractorRead) + [ExtractorRead];
        events := events + [ExtractorRead];
        readCalls := readCalls + 1;
        if k == |steps| {
          done := true;
        } else {
          var s := steps[k];
          ConsumedAppend(steps[..k], s);
          assert steps[..k + 1] == steps[..k] + [s];
          assert steps[k..][1..] == steps[k + 1..];
          position := position + s.consumed;
          k := k + 1;
          if s.cancelDuring {
            loadCanceled := true;
          }
          match s.outcome {
            case MoreData =>
            case NoMoreData =>
              done := true;
            case Throws(e) =>
              failure := Some(e);
              done := true;
          }
        }
      }
      // The inner `finally`: the resume offset and the index are captured
      // whether or not a read threw.
      nextLoadPosition := position - dataSpec.position;
      chunkIndex := indexAtExit;
      // The outer `finally`.
      events := events + [SourceClosed];
      if failure.Some? {
        r := Fail(failure.value);
      } else {
        r := Ok(());
      }
    }
  }
}
