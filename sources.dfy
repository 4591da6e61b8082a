/** The sources the queue plays: the three kinds it creates itself or is fed
    with in its tests (an in-memory buffer, a counted silence and an
    already-ended source), and any other source, whose hints are free. Each
    reports the hints the queue reads: its span length and the lower bound of
    its size hint. */
module Sources {
  import opened Common

  /** The hints a source reports at one point of its playback: its
      `current_span_len` and the lower bound of its `size_hint`. */
  datatype Hint = Hint(span: Option<nat>, lower: nat)

  datatype Source =
    | /** A finite in-memory buffer; `data` is what is still to be played. */
      SamplesBuffer(channels: ChannelCount, rate: SampleRate, data: seq<Sample>)
    | /** `remaining` more zero samples. */
      Zero(channels: ChannelCount, rate: SampleRate, remaining: nat)
    | /** A source that has already ended. */
      Empty
    | /** Any other source: `data` is what it will still play, and
          `hints[k]` what it reports after `k` more samples; once the list
          runs out it reports no span and a lower bound of 0. */
      Opaque(channels: ChannelCount, rate: SampleRate, data: seq<Sample>, hints: seq<Hint>)
  {
    /** Channel count of the current span. */
    function Channels(): ChannelCount
    {
      if Empty? then 1 else channels
    }

    /** Sample rate of the current span. */
    function SampleRate(): SampleRate
    {
      if Empty? then 48000 else rate
    }

    /** Every sample the source will still produce, in order. */
    function Samples(): seq<Sample>
    {
      match this
      case SamplesBuffer(_, _, d) => d
      case Zero(_, _, n) => seq(n, _ => SILENCE)
      case Empty => []
      case Opaque(_, _, d, _) => d
    }

    predicate HasNext()
    {
      match this
      case SamplesBuffer(_, _, d) => d != []
      case Zero(_, _, n) => n > 0
      case Empty => false
      case Opaque(_, _, d, _) => d != []
    }

    /** The hint an opaque source reports now. */
    function CurrentHint(): Hint
      requires Opaque?
    {
      if hints == [] then Hint(None, 0) else hints[0]
    }

    /** `current_span_len`: a buffer and an empty source do not know it, a
        counted silence is one span of its remaining samples; any other
        source reports what it likes. */
    function SpanLen(): Option<nat>
    {
      match this
      case SamplesBuffer(_, _, _) => None
      case Zero(_, _, n) => Some(n)
      case Empty => None
      case Opaque(_, _, _, _) => CurrentHint().span
    }

    /** Lower bound of `size_hint`: exact for a buffer, 0 for a silence and
        an ended source, the reported one for any other source. An iterator
        may not report more than it yields; a larger report is read as the
        number of samples left. */
    function LowerBound(): (lower: nat)
      ensures lower <= |Samples()|
    {
      match this
      case SamplesBuffer(_, _, d) => |d|
      case Zero(_, _, _) => 0
      case Empty => 0
      case Opaque(_, _, d, _) => if CurrentHint().lower <= |d| then CurrentHint().lower else |d|
    }

    /** The hints tell exactly where the source ends: its span, when it
        reports one, is what it has left, and otherwise the lower bound of
        its size hint is. */
    predicate ExactHints()
    {
      if SpanLen().Some? then SpanLen().value == |Samples()| else LowerBound() == |Samples()|
    }

    /** A buffer, a counted silence and an ended source report exact hints;
        only other sources can mislead. */
    lemma KnownKindsExact()
      requires !Opaque?
      ensures ExactHints()
    {
    }

    /** `Iterator::next`: the first remaining sample and the source left
        after it, or None once the source is exhausted. */
    function Next(): (r: Option<(Sample, Source)>)
      ensures r.None? <==> !HasNext()
    {
      match this
      case SamplesBuffer(c, sr, d) =>
        if d == [] then None else Some((d[0], SamplesBuffer(c, sr, d[1..])))
      case Zero(c, sr, n) =>
        if n == 0 then None else Some((SILENCE, Zero(c, sr, n - 1)))
      case Empty => None
      case Opaque(c, sr, d, hs) =>
        if d == [] then None else Some((d[0], Opaque(c, sr, d[1..], if hs == [] then [] else hs[1..])))
    }

    /** `next` yields exactly the samples the source still holds: None when
        there are none left, otherwise the first one, leaving the rest in a
        source of the same format. */
    lemma NextTakesFirst()
      ensures Next().None? <==> Samples() == []
      ensures Next().Some? ==>
        Next().value.0 == Samples()[0] && Next().value.1.Samples() == Samples()[1..]
      ensures Next().Some? ==>
        Next().value.1.Channels() == Channels() && Next().value.1.SampleRate() == SampleRate()
    {
      if Zero? && remaining > 0 {
        assert Next().value.1.Samples() == Samples()[1..];
      }
    }
  }
}
