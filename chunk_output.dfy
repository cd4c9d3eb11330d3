/** BaseMediaChunkOutput: hands each track reported by a chunk extractor
    the sample queue registered for its track type, and fans out to all the
    queues. */
module ChunkOutput {
  import opened Common

  /** The parts of a SampleQueue the chunk output reads and writes. */
  class SampleQueue {
    var writeIndex: nat
    var sampleOffsetUs: int

    constructor (writeIndex: nat, sampleOffsetUs: int)
      ensures this.writeIndex == writeIndex && this.sampleOffsetUs == sampleOffsetUs
    {
      this.writeIndex := writeIndex;
      this.sampleOffsetUs := sampleOffsetUs;
    }

    /** `getWriteIndex()`. */
    function GetWriteIndex(): nat
      reads this
    {
      writeIndex
    }

    /** `setSampleOffsetUs(offset)`. */
    method SetSampleOffsetUs(offset: int)
      modifies this
      ensures sampleOffsetUs == offset && writeIndex == old(writeIndex)
    {
      sampleOffsetUs := offset;
    }
  }

  /** The TrackOutput `track` hands out: a registered queue, or a new
      DiscardingTrackOutput. */
  datatype TrackTarget = Queue(index: nat, queue: SampleQueue) | NewDiscarding

  /** The position of the first registered track type equal to `trackType`. */
  function FirstIndexOf(trackTypes: seq<int>, trackType: int): (r: Option<nat>)
    ensures r.Some? ==> r.value < |trackTypes| && trackTypes[r.value] == trackType &&
                        forall j :: 0 <= j < r.value ==> trackTypes[j] != trackType
    ensures r.None? <==> trackType !in trackTypes
  {
    if |trackTypes| == 0 then None
    else if trackTypes[0] == trackType then Some(0)
    else
      var rest := FirstIndexOf(trackTypes[1..], trackType);
      assert trackType in trackTypes[1..] ==> trackType in trackTypes;
      if rest.None? then None else Some(rest.value + 1)
  }

  class BaseMediaChunkOutput {
    const trackTypes: seq<int>
    const sampleQueues: seq<SampleQueue>

    ghost function Queues(): set<SampleQueue> {
      set i | 0 <= i < |sampleQueues| :: sampleQueues[i]
    }

    /** The two arrays are meant to be parallel, queue i being the output
        for type i; nothing checks that they are. */
    constructor (trackTypes: seq<int>, sampleQueues: seq<SampleQueue>)
      ensures this.trackTypes == trackTypes && this.sampleQueues == sampleQueues
    {
      this.trackTypes := trackTypes;
      this.sampleQueues := sampleQueues;
    }

    /** `track(id, type)`: the queue of the first matching type, whatever
        the id; an unmatched type gets a discarding output, and a match past
        the end of the queue array is an index error. */
    method Track(id: int, trackType: int) returns (r: Result<TrackTarget>)
      ensures r.Ok? && r.value.Queue? ==>
        r.value.index < |trackTypes| && trackTypes[r.value.index] == trackType &&
        r.value.index < |sampleQueues| && r.value.queue == sampleQueues[r.value.index] &&
        forall j :: 0 <= j < r.value.index ==> trackTypes[j] != trackType
      ensures r == Ok(NewDiscarding) <==> trackType !in trackTypes
      ensures r.Fail? ==> r.error == IndexOutOfBounds
      ensures |trackTypes| <= |sampleQueues| ==> r.Ok?
      ensures r == (var k := FirstIndexOf(trackTypes, trackType);
                    if k.None? then Ok(NewDiscarding)
                    else if k.value < |sampleQueues| then Ok(Queue(k.value, sampleQueues[k.value]))
                    else Fail(IndexOutOfBounds))
    {
      var i := 0;
      while i < |trackTypes|
        invariant 0 <= i <= |trackTypes|
        invariant forall j :: 0 <= j < i ==> trackTypes[j] != trackType
      {
        if trackType == trackTypes[i] {
          FirstIndexUnique(trackTypes, trackType, i);
          if i >= |sampleQueues| {
            return Fail(IndexOutOfBounds);
          }
          return Ok(Queue(i, sampleQueues[i]));
        }
        i := i + 1;
      }
      return Ok(NewDiscarding);
    }

    /** A first match is the first match. */
    static lemma FirstIndexUnique(trackTypes: seq<int>, trackType: int, i: nat)
      requires i < |trackTypes| && trackTypes[i] == trackType
      requires forall j :: 0 <= j < i ==> trackTypes[j] != trackType
      ensures FirstIndexOf(trackTypes, trackType) == Some(i)
    {
    }

    /** `getWriteIndices()`: a new array holding each queue's write index. */
    method GetWriteIndices() returns (writeIndices: array<int>)
      ensures fresh(writeIndices)
      ensures writeIndices.Length == |sampleQueues|
      ensures forall i :: 0 <= i < |sampleQueues| ==> writeIndices[i] == sampleQueues[i].GetWriteIndex()
    {
      writeIndices := new int[|sampleQueues|];
      var i := 0;
      while i < |sampleQueues|
        invariant 0 <= i <= |sampleQueues|
        invariant forall j :: 0 <= j < i ==> writeIndices[j] == sampleQueues[j].GetWriteIndex()
      {
        writeIndices[i] := sampleQueues[i].GetWriteIndex();
        i := i + 1;
      }
    }

    /** `setSampleOffsetUs(offset)`: every queue gets the same offset; write
        indices are untouched. */
    method SetSampleOffsetUs(offset: int)
      modifies Queues()
      ensures forall i :: 0 <= i < |sampleQueues| ==> sampleQueues[i].sampleOffsetUs == offset
      ensures forall i :: 0 <= i < |sampleQueues| ==> sampleQueues[i].writeIndex == old(sampleQueues[i].writeIndex)
    {
      var i := 0;
      while i < |sampleQueues|
        invariant 0 <= i <= |sampleQueues|
        invariant forall j :: 0 <= j < i ==> sampleQueues[j].sampleOffsetUs == offset
        invariant forall j :: 0 <= j < |sampleQueues| ==> sampleQueues[j].writeIndex == old(sampleQueues[j].writeIndex)
      {
        sampleQueues[i].SetSampleOffsetUs(offset);
        i := i + 1;
      }
    }
  }
}
