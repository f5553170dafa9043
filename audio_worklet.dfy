/**
 * The audio frame accumulator that runs in the capture thread: it copies the
 * first channel of its input, sample by sample, into a fixed buffer of 4096
 * slots and posts a copy of the buffer to the main thread each time it fills.
 *
 * Samples are only copied, so they are a type parameter. Posting a message
 * on the worklet's port is modelled as appending the posted frame to the
 * field `posted`.
 */
module AudioWorklet {

  /** Samples per posted frame. */
  const BufferSize: nat := 4096

  /** The accumulator's abstract state: the frames posted so far and the
      samples waiting in the buffer. */
  datatype Accumulator<S> = Accumulator(frames: seq<seq<S>>, pending: seq<S>)

  /** Every posted frame is full and the buffer still has room. */
  ghost predicate WellFormed<S>(acc: Accumulator<S>) {
    && |acc.pending| < BufferSize
    && forall k :: 0 <= k < |acc.frames| ==> |acc.frames[k]| == BufferSize
  }

  /** One iteration of the copy loop: store `x`, and flush when full. At
      most one frame is posted, it is the buffer with `x` appended, and it is
      posted exactly when that fills the buffer. */
  function Step<S>(acc: Accumulator<S>, x: S): (r: Accumulator<S>)
    ensures r.frames == acc.frames || r.frames == acc.frames + [acc.pending + [x]]
    ensures |r.frames| > |acc.frames| <==> |acc.pending| + 1 >= BufferSize
    ensures |acc.pending| < BufferSize ==> |r.pending| < BufferSize
  {
    var p := acc.pending + [x];
    if |p| >= BufferSize then Accumulator(acc.frames + [p], []) else Accumulator(acc.frames, p)
  }

  /** The copy loop run over `samples`, one `Step` per sample, in order. */
  function Feed<S>(acc: Accumulator<S>, samples: seq<S>): (r: Accumulator<S>)
    ensures |acc.frames| <= |r.frames| && r.frames[..|acc.frames|] == acc.frames
    decreases |samples|
  {
    if samples == [] then acc
    else Step(Feed(acc, samples[..|samples| - 1]), samples[|samples| - 1])
  }

  /** The samples of `frames`, concatenated in order. */
  function Flatten<S>(frames: seq<seq<S>>): seq<S>
    decreases |frames|
  {
    if frames == [] then [] else Flatten(frames[..|frames| - 1]) + frames[|frames| - 1]
  }

  /** Feeding two chunks one after the other is feeding their
      concatenation: how the input is split across calls does not matter. */
  lemma {:induction false} FeedAppend<S>(acc: Accumulator<S>, a: seq<S>, b: seq<S>)
    ensures Feed(acc, a + b) == Feed(Feed(acc, a), b)
    decreases |b|
  {
    if b == [] {
      assert a + b == a;
    } else {
      var b' := b[..|b| - 1];
      assert (a + b)[..|a + b| - 1] == a + b';
      assert (a + b)[|a + b| - 1] == b[|b| - 1];
      FeedAppend(acc, a, b');
    }
  }

  /** Frames are never lost or rewritten once posted, every frame posted is
      full, and the buffer never overflows. */
  lemma {:induction false} FeedKeepsFrames<S>(acc: Accumulator<S>, samples: seq<S>)
    requires WellFormed(acc)
    ensures WellFormed(Feed(acc, samples))
    ensures |acc.frames| <= |Feed(acc, samples).frames|
    ensures Feed(acc, samples).frames[..|acc.frames|] == acc.frames
    decreases |samples|
  {
    if samples != [] {
      var before := Feed(acc, samples[..|samples| - 1]);
      FeedKeepsFrames(acc, samples[..|samples| - 1]);
      var after := Step(before, samples[|samples| - 1]);
      assert after.frames[..|acc.frames|] == before.frames[..|acc.frames|];
    }
  }

  lemma {:induction false} FlattenSnoc<S>(frames: seq<seq<S>>, f: seq<S>)
    ensures Flatten(frames + [f]) == Flatten(frames) + f
  {
  }

  /** No sample is dropped, duplicated or reordered: the posted frames,
      followed by the buffered samples, are the old ones followed by the
      samples fed. */
  lemma {:induction false} FeedConservesSamples<S>(acc: Accumulator<S>, samples: seq<S>)
    ensures Flatten(Feed(acc, samples).frames) + Feed(acc, samples).pending
         == Flatten(acc.frames) + acc.pending + samples
    decreases |samples|
  {
    if samples != [] {
      var init := samples[..|samples| - 1];
      var x := samples[|samples| - 1];
      var before := Feed(acc, init);
      var after := Feed(acc, samples);
      FeedConservesSamples(acc, init);
      assert after == Step(before, x);
      var p := before.pending + [x];
      assert init + [x] == samples;
      var sofar := Flatten(acc.frames) + acc.pending;
      assert Flatten(before.frames) + p == sofar + samples by {
        assert Flatten(before.frames) + before.pending == sofar + init;
        assert Flatten(before.frames) + p == (Flatten(before.frames) + before.pending) + [x];
        assert (sofar + init) + [x] == sofar + samples;
      }
      if |p| >= BufferSize {
        assert after == Accumulator(before.frames + [p], []);
        FlattenSnoc(before.frames, p);
        assert Flatten(after.frames) + after.pending == Flatten(before.frames) + p;
      } else {
        assert after == Accumulator(before.frames, p);
      }
    }
  }

  /** Arithmetic of one more sample in a buffer of `BufferSize` slots. */
  lemma DivModSucc(n: nat)
    ensures n % BufferSize + 1 == BufferSize ==>
              (n + 1) / BufferSize == n / BufferSize + 1 && (n + 1) % BufferSize == 0
    ensures n % BufferSize + 1 < BufferSize ==>
              (n + 1) / BufferSize == n / BufferSize && (n + 1) % BufferSize == n % BufferSize + 1
  {
  }

  /** Feeding `n` samples into a buffer holding `i` posts (i + n) / 4096
      frames and leaves (i + n) % 4096 samples buffered. */
  lemma {:induction false} FeedCounts<S>(acc: Accumulator<S>, samples: seq<S>)
    requires |acc.pending| < BufferSize
    ensures |Feed(acc, samples).frames| == |acc.frames| + (|acc.pending| + |samples|) / BufferSize
    ensures |Feed(acc, samples).pending| == (|acc.pending| + |samples|) % BufferSize
    decreases |samples|
  {
    if samples != [] {
      var init := samples[..|samples| - 1];
      FeedCounts(acc, init);
      DivModSucc(|acc.pending| + |init|);
    }
  }

  lemma {:induction false} FlattenLength<S>(frames: seq<seq<S>>)
    requires forall k :: 0 <= k < |frames| ==> |frames[k]| == BufferSize
    ensures |Flatten(frames)| == BufferSize * |frames|
    decreases |frames|
  {
    if frames != [] {
      FlattenLength(frames[..|frames| - 1]);
    }
  }

  /** Frame completeness: from an empty buffer, a stream of L samples yields
      exactly L - L % 4096 posted samples, the first ones of the stream, and
      the remaining L % 4096 stay buffered. */
  lemma FrameCompleteness<S>(stream: seq<S>)
    ensures var acc := Feed(Accumulator([], []), stream);
            && |Flatten(acc.frames)| == |stream| - |stream| % BufferSize
            && Flatten(acc.frames) == stream[..|stream| - |stream| % BufferSize]
            && acc.pending == stream[|stream| - |stream| % BufferSize..]
  {
    var empty: Accumulator<S> := Accumulator([], []);
    var acc := Feed(empty, stream);
    FeedConservesSamples(empty, stream);
    FeedCounts(empty, stream);
    FeedKeepsFrames(empty, stream);
    FlattenLength(acc.frames);
    assert Flatten(acc.frames) + acc.pending == stream;
  }

  /**
   * The `AudioWorkletProcessor` subclass. `buffer` and `bufferSize` are set
   * once by the constructor; `bufferIndex` is the write position; `posted`
   * holds the frames sent on the port, oldest first; the ghost `received`
   * is every channel-0 sample handed to `Process` so far.
   */
  class AudioProcessor<S(0)> {
    const bufferSize: nat
    const buffer: array<S>
    var bufferIndex: nat
    var posted: seq<seq<S>>
    ghost var received: seq<S>

    /** The abstract state: frames posted and samples waiting. */
    ghost function State(): Accumulator<S>
      reads this, buffer
      requires bufferIndex <= buffer.Length
    {
      Accumulator(posted, buffer[..bufferIndex])
    }

    /** The object invariant: a 4096-slot buffer, an index inside it, and a
        state that is the copy loop run over everything received. */
    ghost predicate Valid()
      reads this, buffer
    {
      && bufferSize == BufferSize
      && buffer.Length == bufferSize
      && bufferIndex < bufferSize
      && State() == Feed(Accumulator([], []), received)
    }

    /** Every frame posted so far is full, and the posted frames followed by
        the buffered samples are exactly the samples received, in order. */
    lemma ValidMeansNoLoss()
      requires Valid()
      ensures forall k :: 0 <= k < |posted| ==> |posted[k]| == BufferSize
      ensures Flatten(posted) + buffer[..bufferIndex] == received
    {
      FeedKeepsFrames(Accumulator([], []), received);
      FeedConservesSamples(Accumulator([], []), received);
    }

    constructor ()
      ensures Valid() && fresh(buffer)
      ensures bufferSize == 4096 && buffer.Length == 4096 && bufferIndex == 0
      ensures posted == [] && received == []
    {
      bufferSize := BufferSize;
      buffer := new S[BufferSize];
      bufferIndex := 0;
      posted := [];
      received := [];
    }

    /**
     * `process(inputs)`: only channel 0 of input 0 is read; an input with no
     * channels changes nothing. The call always asks to be kept alive.
     */
    method Process(inputs: seq<seq<seq<S>>>) returns (keepAlive: bool)
      requires Valid()
      requires |inputs| > 0
      modifies this, buffer
      ensures Valid()
      ensures keepAlive
      ensures |inputs[0]| == 0 ==>
                posted == old(posted) && bufferIndex == old(bufferIndex)
                && buffer[..] == old(buffer[..]) && received == old(received)
      ensures |inputs[0]| > 0 ==>
                && received == old(received) + inputs[0][0]
                && State() == Feed(old(State()), inputs[0][0])
                && |posted| == |old(posted)| + (old(bufferIndex) + |inputs[0][0]|) / BufferSize
                && bufferIndex == (old(bufferIndex) + |inputs[0][0]|) % BufferSize
                && posted[..|old(posted)|] == old(posted)
    {
      var input := inputs[0];
      if |input| > 0 {
        var inputChannel := input[0];
        ghost var start := State();
        ghost var before := received;
        for i := 0 to |inputChannel|
          invariant bufferIndex < bufferSize == buffer.Length == BufferSize
          invariant received == before
          invariant State() == Feed(start, inputChannel[..i])
        {
          ghost var acc := State();
          buffer[bufferIndex] := inputChannel[i];
          bufferIndex := bufferIndex + 1;
          assert buffer[..bufferIndex] == acc.pending + [inputChannel[i]];
          assert inputChannel[..i + 1][..i] == inputChannel[..i];
          assert Feed(start, inputChannel[..i + 1]) == Step(acc, inputChannel[i]);
          if bufferIndex >= bufferSize {
            assert buffer[..] == buffer[..bufferIndex];
            posted := posted + [buffer[..]];
            bufferIndex := 0;
          }
        }
        assert inputChannel[..|inputChannel|] == inputChannel;
        received := received + inputChannel;
        FeedAppend(Accumulator([], []), before, inputChannel);
        FeedCounts(start, inputChannel);
        FeedKeepsFrames(Accumulator([], []), before);
        FeedKeepsFrames(start, inputChannel);
      }
      return true;
    }
  }
}
