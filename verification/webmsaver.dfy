/**
 * The recording side of internal/pirtc/webmsaver.go: reading the key-frame
 * flag and the frame size from the uncompressed VP8 data chunk (section
 * 9.1 of RFC 6386), opening the WebM writer lazily on the first key frame,
 * and stamping every written block with a running timestamp.
 *
 * The sample builder (the jitter buffer) is foreign: PushVP8 is given the
 * samples its Pop returns, in pop order, up to the first nil. The WebM
 * writer is a record of how it was opened and of the blocks written to it.
 */
module WebmSaver {
  import opened Wrappers

  /** A media sample: its bytes and its duration in nanoseconds (time.Duration). */
  datatype Sample = Sample(data: seq<bv8>, duration: int)

  /** How InitWriter opened the writer: the file path and the frame size. */
  datatype WriterInfo = WriterInfo(path: string, width: int, height: int)

  /** One Write(keyframe, timestamp, data) call on the writer; timestamp in milliseconds. */
  datatype Block = Block(keyframe: bool, timestampMs: int, data: seq<bv8>)

  /** The saver's state: the writer (nil until the first key frame), the running timestamp, the blocks written. */
  datatype SaverState = SaverState(writer: Option<WriterInfo>, timestamp: int, blocks: seq<Block>)

  const NanosPerMilli := 1_000_000

  /** The 14-bit mask applied to each dimension. */
  const DimensionMask: bv32 := 0x3FFF

  /** Bit 0 of the first byte is the frame-type bit; 0 marks a key frame, that is, an even first byte. */
  predicate IsKeyFrame(data: seq<bv8>)
    requires |data| >= 1
    ensures IsKeyFrame(data) <==> (data[0] as int) % 2 == 0
  {
    data[0] & 0x1 == 0
  }

  /** Four bytes read as one little-endian 32-bit word, as the source ORs the shifted bytes together. */
  function LittleEndian32(b0: bv8, b1: bv8, b2: bv8, b3: bv8): (w: bv32)
    ensures w & 0xFF == b0 as bv32 && (w >> 8) & 0xFF == b1 as bv32
    ensures (w >> 16) & 0xFF == b2 as bv32 && w >> 24 == b3 as bv32
  {
    (b0 as bv32) | ((b1 as bv32) << 8) | ((b2 as bv32) << 16) | ((b3 as bv32) << 24)
  }

  lemma MaskedLowHalf(b0: bv8, b1: bv8, b2: bv8, b3: bv8)
    ensures LittleEndian32(b0, b1, b2, b3) & DimensionMask == ((b0 as bv32) | ((b1 as bv32) << 8)) & DimensionMask
  {
  }

  lemma MaskedHighHalf(b0: bv8, b1: bv8, b2: bv8, b3: bv8)
    ensures (LittleEndian32(b0, b1, b2, b3) >> 16) & DimensionMask == ((b2 as bv32) | ((b3 as bv32) << 8)) & DimensionMask
  {
  }

  lemma ByteWidens(b: bv8)
    ensures (b as bv32) as int == b as int
  {
  }

  lemma Low6(b: bv8)
    ensures (b & 0x3F) as int == (b as int) % 64
  {
  }

  lemma Low14Bits(b0: bv8, b1: bv8)
    ensures ((b0 as bv32) | ((b1 as bv32) << 8)) & DimensionMask == (b0 as bv32) + ((b1 & 0x3F) as bv32) * 256
  {
  }

  lemma SmallSumAsInt(x: bv32, y: bv32)
    requires x < 256 && y < 64
    ensures (x + y * 256) as int == x as int + 256 * (y as int)
  {
  }

  /** The low 14 bits of the 16-bit little-endian value b0, b1, as an integer. */
  lemma Low14(b0: bv8, b1: bv8)
    ensures (((b0 as bv32) | ((b1 as bv32) << 8)) & DimensionMask) as int == b0 as int + 256 * ((b1 as int) % 64)
  {
    Low14Bits(b0, b1);
    SmallSumAsInt(b0 as bv32, (b1 & 0x3F) as bv32);
    ByteWidens(b0);
    ByteWidens(b1 & 0x3F);
    Low6(b1);
  }

  lemma WidthBits(b0: bv8, b1: bv8, b2: bv8, b3: bv8)
    ensures (LittleEndian32(b0, b1, b2, b3) & DimensionMask) as int == b0 as int + 256 * ((b1 as int) % 64)
  {
    MaskedLowHalf(b0, b1, b2, b3);
    Low14(b0, b1);
  }

  lemma HeightBits(b0: bv8, b1: bv8, b2: bv8, b3: bv8)
    ensures ((LittleEndian32(b0, b1, b2, b3) >> 16) & DimensionMask) as int == b2 as int + 256 * ((b3 as int) % 64)
  {
    MaskedHighHalf(b0, b1, b2, b3);
    Low14(b2, b3);
  }

  /** `int(raw & 0x3FFF)` for the word raw built from bytes 6 to 9. */
  function WidthOfWord(b6: bv8, b7: bv8, b8: bv8, b9: bv8): (w: int)
    ensures w == b6 as int + 256 * ((b7 as int) % 64)
  {
    WidthBits(b6, b7, b8, b9);
    (LittleEndian32(b6, b7, b8, b9) & DimensionMask) as int
  }

  /** `int((raw >> 16) & 0x3FFF)` for the word raw built from bytes 6 to 9. */
  function HeightOfWord(b6: bv8, b7: bv8, b8: bv8, b9: bv8): (h: int)
    ensures h == b8 as int + 256 * ((b9 as int) % 64)
  {
    HeightBits(b6, b7, b8, b9);
    ((LittleEndian32(b6, b7, b8, b9) >> 16) & DimensionMask) as int
  }

  /** Width: the little-endian 16-bit value in bytes 6 and 7, masked to 14 bits. */
  function FrameWidth(data: seq<bv8>): (w: int)
    requires |data| >= 10
    ensures 0 <= w < 0x4000
    ensures w == data[6] as int + 256 * ((data[7] as int) % 64)
  {
    WidthOfWord(data[6], data[7], data[8], data[9])
  }

  /** Height: the little-endian 16-bit value in bytes 8 and 9, masked to 14 bits. */
  function FrameHeight(data: seq<bv8>): (h: int)
    requires |data| >= 10
    ensures 0 <= h < 0x4000
    ensures h == data[8] as int + 256 * ((data[9] as int) % 64)
  {
    HeightOfWord(data[6], data[7], data[8], data[9])
  }

  /** Go's integer division, which truncates toward zero. */
  function GoDiv(a: int, b: int): (q: int)
    requires b > 0
    ensures a >= 0 ==> q * b <= a < q * b + b
    ensures a < 0 ==> q * b >= a > q * b - b
  {
    if a >= 0 then a / b else -((-a) / b)
  }

  /** A sample the header decode can read: one byte for the flag, ten for a key frame's size. */
  predicate Readable(s: Sample)
  {
    |s.data| >= 1 && (IsKeyFrame(s.data) ==> |s.data| >= 10)
  }

  predicate AllReadable(samples: seq<Sample>)
  {
    forall i :: 0 <= i < |samples| ==> Readable(samples[i])
  }

  /** One popped sample: maybe open the writer, then write the sample if there is a writer. */
  function Step(st: SaverState, path: string, s: Sample): (r: SaverState)
    requires Readable(s)
    ensures st.writer.Some? ==> r.writer == st.writer
    ensures st.writer.None? && IsKeyFrame(s.data) ==>
              r.writer == Some(WriterInfo(path, FrameWidth(s.data), FrameHeight(s.data)))
    ensures st.writer.None? && !IsKeyFrame(s.data) ==> r == st
    ensures r.writer.None? ==> r == st
    ensures r.writer.Some? ==>
              && r.timestamp == st.timestamp + s.duration
              && r.blocks == st.blocks + [Block(IsKeyFrame(s.data), GoDiv(r.timestamp, NanosPerMilli), s.data)]
  {
    var key := IsKeyFrame(s.data);
    var writer := if key && st.writer.None? then Some(WriterInfo(path, FrameWidth(s.data), FrameHeight(s.data))) else st.writer;
    if writer.None? then st
    else
      var ts := st.timestamp + s.duration;
      SaverState(writer, ts, st.blocks + [Block(key, GoDiv(ts, NanosPerMilli), s.data)])
  }

  /** All samples popped by one PushVP8 call, in pop order. */
  function Push(st: SaverState, path: string, samples: seq<Sample>): (r: SaverState)
    requires AllReadable(samples)
    ensures |st.blocks| <= |r.blocks| <= |st.blocks| + |samples|
    ensures r.blocks[..|st.blocks|] == st.blocks
    decreases |samples|
  {
    if |samples| == 0 then st else Push(Step(st, path, samples[0]), path, samples[1..])
  }

  function SumDurations(samples: seq<Sample>): int
  {
    if |samples| == 0 then 0 else samples[0].duration + SumDurations(samples[1..])
  }

  /** Once a writer exists, no later sample (key frame or not) replaces it. */
  lemma {:induction false} PushKeepsWriter(st: SaverState, path: string, samples: seq<Sample>)
    requires AllReadable(samples)
    requires st.writer.Some?
    ensures Push(st, path, samples).writer == st.writer
    decreases |samples|
  {
    if |samples| > 0 {
      PushKeepsWriter(Step(st, path, samples[0]), path, samples[1..]);
    }
  }

  /** While no key frame has arrived, samples are dropped: nothing is written and the timestamp stays. */
  lemma {:induction false} PushDropsBeforeKeyFrame(st: SaverState, path: string, samples: seq<Sample>)
    requires AllReadable(samples)
    requires st.writer.None?
    requires forall i :: 0 <= i < |samples| ==> !IsKeyFrame(samples[i].data)
    ensures Push(st, path, samples) == st
    decreases |samples|
  {
    if |samples| > 0 {
      PushDropsBeforeKeyFrame(st, path, samples[1..]);
    }
  }

  /**
   * Without a writer, the first key frame k opens it with k's width and
   * height and the path of this call; the samples before k are dropped.
   */
  lemma {:induction false} PushOpensOnFirstKeyFrame(st: SaverState, path: string, samples: seq<Sample>, k: nat)
    requires AllReadable(samples)
    requires st.writer.None?
    requires k < |samples| && IsKeyFrame(samples[k].data)
    requires forall i :: 0 <= i < k ==> !IsKeyFrame(samples[i].data)
    ensures Push(st, path, samples) == Push(st, path, samples[k..])
    ensures Push(st, path, samples).writer == Some(WriterInfo(path, FrameWidth(samples[k].data), FrameHeight(samples[k].data)))
    decreases |samples|
  {
    if k > 0 {
      assert samples[1..][k - 1..] == samples[k..];
      PushOpensOnFirstKeyFrame(st, path, samples[1..], k - 1);
    } else {
      var next := Step(st, path, samples[0]);
      assert next.writer == Some(WriterInfo(path, FrameWidth(samples[0].data), FrameHeight(samples[0].data)));
      PushKeepsWriter(next, path, samples[1..]);
    }
  }

  /**
   * With a writer open, every sample is written in pop order: the timestamp
   * grows by the sum of the durations, and block i carries the sample's
   * key-frame flag, its bytes, and the timestamp after adding its duration,
   * in milliseconds. Earlier blocks are untouched.
   */
  lemma {:induction false} PushWritesEverySample(st: SaverState, path: string, samples: seq<Sample>)
    requires AllReadable(samples)
    requires st.writer.Some?
    ensures var r := Push(st, path, samples);
            && r.timestamp == st.timestamp + SumDurations(samples)
            && |r.blocks| == |st.blocks| + |samples|
            && r.blocks[..|st.blocks|] == st.blocks
            && WrittenFrom(r.blocks, |st.blocks|, st.timestamp, samples)
    decreases |samples|
  {
    if |samples| > 0 {
      var next := Step(st, path, samples[0]);
      var rest := samples[1..];
      PushWritesEverySample(next, path, rest);
      var r := Push(st, path, samples);
      assert r == Push(next, path, rest);
      assert r.blocks[..|next.blocks|] == next.blocks;
      BlocksAfterFirst(r.blocks, |st.blocks|, |next.blocks|, st.timestamp, next.timestamp, samples, rest);
    }
  }

  /**
   * From position base on, blocks holds one block per sample, in order: the
   * sample's key-frame flag and bytes, stamped in milliseconds with t plus the
   * durations of the samples up to and including it.
   */
  predicate WrittenFrom(blocks: seq<Block>, base: nat, t: int, samples: seq<Sample>)
  {
    && AllReadable(samples)
    && base + |samples| <= |blocks|
    && forall i :: 0 <= i < |samples| ==>
         blocks[base + i] == Block(IsKeyFrame(samples[i].data), GoDiv(t + SumDurations(samples[..i + 1]), NanosPerMilli), samples[i].data)
  }

  /**
   * If block base holds the first sample and the remaining samples are
   * written from base1 = base + 1, timed from t1 (the first one's end), then
   * all the samples are written from base.
   */
  lemma BlocksAfterFirst(blocks: seq<Block>, base: nat, base1: nat, t: int, t1: int, samples: seq<Sample>, rest: seq<Sample>)
    requires AllReadable(samples) && |samples| > 0 && rest == samples[1..] && base1 == base + 1 && base < |blocks|
    requires t1 == t + samples[0].duration
    requires blocks[base] == Block(IsKeyFrame(samples[0].data), GoDiv(t1, NanosPerMilli), samples[0].data)
    requires WrittenFrom(blocks, base1, t1, rest)
    ensures WrittenFrom(blocks, base, t, samples)
  {
    forall i | 0 <= i < |samples|
      ensures blocks[base + i] == Block(IsKeyFrame(samples[i].data), GoDiv(t + SumDurations(samples[..i + 1]), NanosPerMilli), samples[i].data)
    {
      assert samples[..i + 1][1..] == rest[..i];
      if i > 0 {
        assert blocks[base1 + (i - 1)] == blocks[base + i];
        assert rest[i - 1] == samples[i];
      }
    }
  }

  predicate NonNegativeDurations(samples: seq<Sample>)
  {
    forall i :: 0 <= i < |samples| ==> samples[i].duration >= 0
  }

  /** With non-negative durations the running timestamp never goes backwards. */
  lemma {:induction false} PushTimestampNonDecreasing(st: SaverState, path: string, samples: seq<Sample>)
    requires AllReadable(samples)
    requires NonNegativeDurations(samples)
    ensures Push(st, path, samples).timestamp >= st.timestamp
    decreases |samples|
  {
    if |samples| > 0 {
      PushTimestampNonDecreasing(Step(st, path, samples[0]), path, samples[1..]);
    }
  }

  /** The state of a fresh saver: no writer, timestamp 0, nothing written. */
  const Initial := SaverState(None, 0, [])

  class Saver {
    var videoWriter: Option<WriterInfo>
    var videoTimestamp: int
    var written: seq<Block>
    var writerClosed: bool

    function State(): SaverState
      reads this
    {
      SaverState(videoWriter, videoTimestamp, written)
    }

    /** newWebmSaver: no writer yet and a timestamp of 0. */
    constructor NewWebmSaver()
      ensures State() == Initial && !writerClosed
    {
      videoWriter := None;
      videoTimestamp := 0;
      written := [];
      writerClosed := false;
    }

    /** InitWriter: opens the writer for path with the given frame size. */
    method InitWriter(path: string, width: int, height: int)
      modifies this`videoWriter
      ensures videoWriter == Some(WriterInfo(path, width, height))
    {
      videoWriter := Some(WriterInfo(path, width, height));
    }

    /**
     * PushVP8: handles every sample the builder has ready, in pop order,
     * exactly as Push describes (see the lemmas above for what that means).
     */
    method PushVP8(path: string, ready: seq<Sample>)
      requires AllReadable(ready)
      modifies this`videoWriter, this`videoTimestamp, this`written
      ensures State() == Push(old(State()), path, ready)
    {
      var i := 0;
      while i < |ready|
        invariant 0 <= i <= |ready|
        invariant Push(State(), path, ready[i..]) == Push(old(State()), path, ready)
      {
        var sample := ready[i];
        assert ready[i..][1..] == ready[i + 1..];
        var videoKeyframe := sample.data[0] & 0x1 == 0;
        if videoKeyframe {
          var width := FrameWidth(sample.data);
          var height := FrameHeight(sample.data);
          if videoWriter.None? {
            InitWriter(path, width, height);
          }
        }
        if videoWriter.Some? {
          videoTimestamp := videoTimestamp + sample.duration;
          written := written + [Block(videoKeyframe, GoDiv(videoTimestamp, NanosPerMilli), sample.data)];
        }
        i := i + 1;
      }
    }

    /** Close: closes the writer only if one was opened. */
    method Close()
      modifies this`writerClosed
      ensures writerClosed == (old(writerClosed) || videoWriter.Some?)
    {
      if videoWriter.Some? {
        writerClosed := true;
      }
    }
  }
}
