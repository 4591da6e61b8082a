/** Types shared by the queue and the output bridge (src/common.rs), plus the
    usual Option/Result wrappers for the library's `Option` and `Result`. */
module Common {

  /** Number of channels in a stream (u16). */
  type ChannelCount = x: nat | x < 0x1_0000

  /** Samples per second per channel (u32). */
  type SampleRate = x: nat | x < 0x1_0000_0000

  /** A sample is an f32; the model keeps only its IEEE-754 binary32 bit
      pattern and never does arithmetic on it. */
  datatype Sample = Sample(bits: bv32)

  /** +0.0, the value of digital silence, whose bit pattern is all zeros. */
  const SILENCE: Sample := Sample(0)

  datatype Option<+T> = None | Some(value: T)

  datatype Result<+T, +E> = Ok(value: T) | Err(error: E)

  /** Concatenation of sequences is associative. */
  lemma AppendAssoc<T>(a: seq<T>, b: seq<T>, c: seq<T>)
    ensures a + b + c == a + (b + c)
  {
  }
}
