/**
 * `AudioRecorder`: the audio callback puts each 0.5-second block on an
 * unbounded FIFO queue, and `get_audio_chunk` drains up to a duration's worth
 * of blocks from its head and concatenates them. The queue is modelled by
 * what it currently holds; a poll that times out is a poll of an empty queue.
 */
module AudioCapture {
  import opened Options

  /** One sample of the microphone signal (its value is never computed with here). */
  type Sample = real

  /** One block as the callback receives it. */
  type Block = seq<Sample>

  /** Length of one block in seconds: `blocksize=int(SAMPLE_RATE * 0.5)`. */
  const BlockSeconds: real := 0.5

  /** CHUNK_DURATION of the live scripts, in seconds. */
  const ChunkDuration: real := 5.0

  /**
   * `num_frames = int(SAMPLE_RATE * duration / (SAMPLE_RATE * 0.5))`: the
   * whole number of blocks in `duration`, truncated toward zero; a negative
   * count makes `range` empty, so it is 0 here.
   */
  function BlockBudget(duration: real): (n: nat)
    ensures duration <= 0.0 ==> n == 0
    ensures duration > 0.0 ==> n as real <= duration / BlockSeconds < n as real + 1.0
  {
    if duration <= 0.0 then 0 else (duration / BlockSeconds).Floor
  }

  /** With CHUNK_DURATION = 5 a chunk is at most 10 blocks. */
  lemma ChunkBudgetIsTen()
    ensures BlockBudget(ChunkDuration) == 10
  {
    assert ChunkDuration / BlockSeconds == 10.0;
  }

  /** `np.concatenate(frames)`: the samples of the blocks, in block order. */
  function Concat(blocks: seq<Block>): seq<Sample>
    decreases |blocks|
  {
    if blocks == [] then []
    else Concat(blocks[..|blocks| - 1]) + blocks[|blocks| - 1]
  }

  /** The end of `get_audio_chunk`: the concatenation, or `None` when no block was taken. */
  function Assemble(frames: seq<Block>): (r: Option<seq<Sample>>)
  {
    if frames == [] then None else Some(Concat(frames))
  }

  /**
   * Cutting the queue into a chunk and a remainder loses and reorders
   * nothing: the chunk's samples followed by the remaining blocks' samples
   * are the samples that were queued.
   */
  lemma {:induction false} ConcatSplit(blocks: seq<Block>, k: nat)
    requires k <= |blocks|
    ensures Concat(blocks[..k]) + Concat(blocks[k..]) == Concat(blocks)
    decreases |blocks|
  {
    if k < |blocks| {
      var n := |blocks| - 1;
      ConcatSplit(blocks[..n], k);
      assert blocks[..n][..k] == blocks[..k];
      assert blocks[k..][..|blocks[k..]| - 1] == blocks[..n][k..];
    } else {
      assert blocks[..k] == blocks;
    }
  }

  class AudioRecorder {
    /** The blocks put by the callback and not yet taken, oldest first. */
    var audioQueue: seq<Block>
    var isRecording: bool

    constructor ()
      ensures audioQueue == [] && !isRecording
    {
      audioQueue := [];
      isRecording := false;
    }

    /** `callback`: puts a copy of the incoming block at the tail of the queue. */
    method Callback(indata: Block)
      modifies this`audioQueue
      ensures audioQueue == old(audioQueue) + [indata]
    {
      audioQueue := audioQueue + [indata];
    }

    /** `start_recording`, without the device: the recording flag is set. */
    method StartRecording()
      modifies this`isRecording
      ensures isRecording
    {
      isRecording := true;
    }

    /** `stop_recording`, without the device: the recording flag is cleared. */
    method StopRecording()
      modifies this`isRecording
      ensures !isRecording
    {
      isRecording := false;
    }

    /**
     * `get_audio_chunk(duration)`: takes blocks from the head of the queue,
     * at most `BlockBudget(duration)` of them, stopping at the first poll
     * that finds the queue empty; returns their concatenation, or `None`
     * when no block was taken. The queue keeps exactly the blocks not taken.
     */
    method GetAudioChunk(duration: real) returns (chunk: Option<seq<Sample>>)
      modifies this`audioQueue
      ensures var k := if BlockBudget(duration) < |old(audioQueue)|
                       then BlockBudget(duration) else |old(audioQueue)|;
        && audioQueue == old(audioQueue)[k..]
        && chunk == Assemble(old(audioQueue)[..k])
      ensures chunk.None? <==> BlockBudget(duration) == 0 || old(audioQueue) == []
    {
      var frames: seq<Block> := [];
      var numFrames := BlockBudget(duration);
      var i := 0;
      while i < numFrames
        invariant i <= numFrames && i <= |old(audioQueue)|
        invariant frames == old(audioQueue)[..i]
        invariant audioQueue == old(audioQueue)[i..]
      {
        if audioQueue == [] {
          // queue.get(timeout=1) raised queue.Empty
          break;
        }
        frames := frames + [audioQueue[0]];
        audioQueue := audioQueue[1..];
        i := i + 1;
      }
      chunk := Assemble(frames);
    }
  }
}
