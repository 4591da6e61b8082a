/** The queue of src/queue.rs as objects: the shared input (pending list and
    keep-alive flag) and the output that plays the current source. The mutex
    and the atomic flag are not modelled: each method is one atomic step.
    Sending a completion signal appends its id to the ghost log `fired`. */
module Queue {
  import opened Common
  import opened Sources
  import QueueSpec

  type SignalId = QueueSpec.SignalId
  type Entry = QueueSpec.Entry

  /** Positions and durations, in nanoseconds. */
  type Duration = nat

  /** Why a seek failed; the reasons are the current source's own. */
  datatype SeekError = NotSupported | SeekFailed(code: nat)

  /** The input half, shared by every producer. */
  class QueueInput {
    var pending: seq<Entry>
    var keepAlive: bool
    /** Id of the next completion channel to be created. */
    var nextSignal: nat

    constructor (keepAlive: bool)
      ensures pending == [] && this.keepAlive == keepAlive && nextSignal == 0
    {
      pending := [];
      this.keepAlive := keepAlive;
      nextSignal := 0;
    }

    /** `append`: one new entry without a signal, at the end. */
    method Append(source: Source)
      modifies this`pending
      ensures pending == old(pending) + [QueueSpec.Entry(source, None)]
    {
      pending := pending + [QueueSpec.Entry(source, None)];
    }

    /** `append_with_signal`: one new entry at the end, carrying a fresh
        signal whose id is returned (the receiving end of the channel). */
    method AppendWithSignal(source: Source) returns (rx: SignalId)
      modifies this`pending, this`nextSignal
      ensures rx == old(nextSignal) && nextSignal == old(nextSignal) + 1
      ensures pending == old(pending) + [QueueSpec.Entry(source, Some(rx))]
    {
      rx := nextSignal;
      nextSignal := nextSignal + 1;
      pending := pending + [QueueSpec.Entry(source, Some(rx))];
    }

    /** `set_keep_alive_if_empty`. */
    method SetKeepAliveIfEmpty(keepAlive: bool)
      modifies this`keepAlive
      ensures this.keepAlive == keepAlive
    {
      this.keepAlive := keepAlive;
    }

    /** `clear`: drops every pending entry and says how many there were. */
    method Clear() returns (count: nat)
      modifies this`pending
      ensures count == |old(pending)| && pending == []
    {
      count := |pending|;
      pending := [];
    }
  }

  /** The output half: a source that plays the queue. */
  class QueueOutput {
    var current: Source
    var signal: Option<SignalId>
    const input: QueueInput
    /** Ids of the signals sent so far, in order. */
    ghost var fired: seq<SignalId>

    constructor (input: QueueInput)
      ensures this.input == input && current == Empty && signal == None && fired == []
    {
      this.input := input;
      current := Empty;
      signal := None;
      fired := [];
    }

    /** The state of the whole queue, as seen through this output. */
    function View(): QueueSpec.QueueView
      reads this, input
    {
      QueueSpec.QueueView(current, signal, input.pending, input.keepAlive)
    }

    /** Every signal ever created is fired at most once: those sent and those
        still owed are all distinct and all come from the input. */
    ghost predicate Valid()
      reads this, input
    {
      QueueSpec.SignalsOnce(fired, View(), input.nextSignal)
    }

    /** `current_span_len`. */
    method CurrentSpanLen() returns (r: nat)
      ensures r > 0 && r == QueueSpec.SpanLen(View())
      ensures current.HasNext() && current.ExactHints() ==> r == |current.Samples()|
    {
      var span := current.SpanLen();
      if span.Some? {
        if span.value != 0 {
          return span.value;
        } else if input.keepAlive && input.pending == [] {
          return QueueSpec.THRESHOLD;
        }
      }
      var lower := current.LowerBound();
      if lower > 0 {
        return lower;
      }
      r := QueueSpec.THRESHOLD;
    }

    /** `channels`: those of the current source. */
    method Channels() returns (c: ChannelCount)
      ensures c == current.Channels()
    {
      c := current.Channels();
    }

    /** `sample_rate`: that of the current source. */
    method SampleRate() returns (r: SampleRate)
      ensures r == current.SampleRate()
    {
      r := current.SampleRate();
    }

    /** `total_duration`: the queue never knows it. */
    method TotalDuration() returns (d: Option<Duration>)
      ensures d == None
    {
      d := None;
    }

    /** `size_hint`: the current source's lower bound, no upper bound. The
        lower bound is a true lower bound of what the queue still plays. */
    method SizeHint() returns (lower: nat, upper: Option<nat>)
      ensures lower == current.LowerBound() && upper == None
      ensures lower <= |QueueSpec.Remaining(View())|
    {
      lower := current.LowerBound();
      upper := None;
    }

    /** `try_seek`: seeks within the current source only, as `seek` (that
        source's own seek, which leaves it where it likes, even on error)
        decides; the result is passed on and nothing else changes. */
    method TrySeek(seek: (Source, Duration) -> (Source, Result<(), SeekError>), pos: Duration)
      returns (r: Result<(), SeekError>)
      modifies this`current
      ensures current == seek(old(current), pos).0 && r == seek(old(current), pos).1
    {
      var (s, res) := seek(current, pos);
      current := s;
      r := res;
    }

    /** `go_next`. */
    method GoNext() returns (ok: bool)
      modifies this, input`pending
      ensures var a := QueueSpec.GoNext(old(View()));
        ok == a.ok && View() == a.view && fired == old(fired) + a.fired
      ensures old(Valid()) ==> Valid()
    {
      if signal.Some? {
        // The send may fail if the receiver is gone; that is ignored.
        fired := fired + [signal.value];
      }
      signal := None;
      if input.pending == [] {
        if input.keepAlive {
          current := QueueSpec.Filler();
          ok := true;
        } else {
          ok := false;
        }
      } else {
        var e := input.pending[0];
        input.pending := input.pending[1..];
        current := e.sound;
        signal := e.signal;
        ok := true;
      }
      if old(Valid()) {
        QueueSpec.GoNextKeepsSignalsOnce(old(View()), old(fired), input.nextSignal);
      }
    }

    /** `next`: the next sample of the queue, or None when it has ended. */
    method Next() returns (s: Option<Sample>)
      modifies this, input`pending
      ensures var p := QueueSpec.Pull(old(View()));
        s == p.sample && View() == p.view && fired == old(fired) + p.fired
      ensures old(Valid()) ==> Valid()
    {
      ghost var p0 := QueueSpec.Pull(View());
      ghost var cur := View();
      ghost var sent: seq<SignalId> := [];
      while true
        invariant View() == cur && fired == old(fired) + sent
        invariant input.nextSignal == old(input.nextSignal)
        invariant p0 == QueueSpec.Pulled(QueueSpec.Pull(cur).sample, QueueSpec.Pull(cur).view, sent + QueueSpec.Pull(cur).fired)
        decreases |cur.pending|, if cur.current.HasNext() then 0 else 1
      {
        var n := current.Next();
        if n.Some? {
          QueueSpec.PullTakes(cur);
          current := n.value.1;
          s := Some(n.value.0);
          cur := cur.(current := n.value.1);
          break;
        }
        ghost var a := QueueSpec.GoNext(cur);
        var ok := GoNext();
        if !ok {
          QueueSpec.PullEnds(cur);
          AppendAssoc(old(fired), sent, a.fired);
          s := None;
          sent := sent + a.fired;
          cur := a.view;
          break;
        }
        QueueSpec.PullAfterAdvance(cur);
        AppendAssoc(sent, a.fired, QueueSpec.Pull(a.view).fired);
        AppendAssoc(old(fired), sent, a.fired);
        sent := sent + a.fired;
        cur := a.view;
      }
      if old(Valid()) {
        QueueSpec.PullKeepsSignalsOnce(old(View()), old(fired), input.nextSignal);
      }
    }
  }

  /** `queue(keep_alive)`: a new input and the output attached to it. */
  method NewQueue(keepAlive: bool) returns (input: QueueInput, output: QueueOutput)
    ensures fresh(input) && fresh(output) && output.input == input
    ensures output.View() == QueueSpec.Initial(keepAlive) && output.fired == []
    ensures output.Valid() && input.nextSignal == 0
  {
    input := new QueueInput(keepAlive);
    output := new QueueOutput(input);
  }

  // -----------------------------------------------------------------------
  // The scenarios of the queue's own tests
  // -----------------------------------------------------------------------

  /** A new queue with `sources` appended one after the other, as the tests
      set up their queues. */
  method QueueOf(keepAlive: bool, sources: seq<Source>) returns (input: QueueInput, output: QueueOutput)
    ensures fresh(input) && fresh(output) && output.input == input
    ensures output.View() == QueueSpec.QueueView(Empty, None, QueueSpec.Unsignalled(sources), keepAlive)
    ensures output.fired == [] && output.Valid()
  {
    input, output := NewQueue(keepAlive);
    var i := 0;
    while i < |sources|
      invariant i <= |sources| && output.input == input && output.fired == [] && output.Valid()
      invariant output.View() == QueueSpec.QueueView(Empty, None, QueueSpec.Unsignalled(sources[..i]), keepAlive)
    {
      ghost var v := output.View();
      ghost var e := QueueSpec.Entry(sources[i], None);
      QueueSpec.AppendKeepsSignalsOnce([], v, input.nextSignal, e);
      QueueSpec.UnsignalledSnoc(sources, i);
      input.Append(sources[i]);
      assert output.View() == v.(pending := v.pending + [e]);
      i := i + 1;
    }
    assert sources[..i] == sources;
  }

  /** Pulls `n` samples one `next` at a time, as a consumer of the queue does. */
  method PullSamples(output: QueueOutput, n: nat) returns (out: seq<Option<Sample>>)
    modifies output, output.input`pending
    ensures var t := QueueSpec.Run(old(output.View()), n);
      out == t.out && output.View() == t.view && output.fired == old(output.fired) + t.fired
    ensures old(output.Valid()) ==> output.Valid()
  {
    ghost var goal := QueueSpec.Run(output.View(), n);
    ghost var log: seq<SignalId> := [];
    ghost var cur := output.View();
    out := [];
    var i := 0;
    while i < n
      invariant i <= n && output.View() == cur && output.fired == old(output.fired) + log
      invariant output.input.nextSignal == old(output.input.nextSignal)
      invariant goal == QueueSpec.Trace(out + QueueSpec.Run(cur, n - i).out,
        QueueSpec.Run(cur, n - i).view, log + QueueSpec.Run(cur, n - i).fired)
    {
      ghost var p := QueueSpec.Pull(cur);
      ghost var t := QueueSpec.Run(p.view, n - i - 1);
      var s := output.Next();
      AppendAssoc(out, [s], t.out);
      AppendAssoc(log, p.fired, t.fired);
      AppendAssoc(old(output.fired), log, p.fired);
      cur := p.view;
      log := log + p.fired;
      out := out + [s];
      i := i + 1;
    }
    if old(output.Valid()) {
      QueueSpec.RunKeepsSignalsOnce(old(output.View()), n, old(output.fired), output.input.nextSignal);
    }
  }

  /** `immediate_end`: a fresh queue without keep-alive ends at once. */
  method ImmediateEndScenario() returns (s: Option<Sample>)
    ensures s == None
  {
    var input, output := NewQueue(false);
    s := output.Next();
  }

  /** `keep_alive`: with keep-alive on, the queued samples are played and
      then silence, pull after pull (the test queues four samples and pulls
      100000 more times). */
  method KeepAliveScenario(data: seq<Sample>, extra: nat) returns (out: seq<Option<Sample>>)
    ensures |out| == |data| + extra
    ensures forall i :: 0 <= i < |data| ==> out[i] == Some(data[i])
    ensures forall i :: |data| <= i < |out| ==> out[i] == Some(SILENCE)
  {
    var input, output := QueueOf(true, [SamplesBuffer(1, 48000, data)]);
    out := PullSamples(output, |data| + extra);
    QueueSpec.KeepAlivePlays(data, extra);
  }

  /** Two sounds appended one after the other are played back to back, in
      append order, and then the queue (keep-alive off) ends. */
  method FifoScenario(a: seq<Sample>, b: seq<Sample>) returns (out: seq<Option<Sample>>)
    ensures |out| == |a| + |b| + 1
    ensures forall i :: 0 <= i < |a| + |b| ==> out[i] == Some((a + b)[i])
    ensures out[|a| + |b|] == None
  {
    var input, output := QueueOf(false, [SamplesBuffer(1, 48000, a), SamplesBuffer(2, 96000, b)]);
    out := PullSamples(output, |a| + |b| + 1);
    QueueSpec.FifoPlays(a, b);
  }

  /** A sound appended with a signal (the test's has four samples): the
      signal is not sent while the samples play, and is sent exactly once,
      by the pull after them, which ends the stream. Appending and pulling
      keep every signal fired at most once. */
  method SignalScenario(data: seq<Sample>) returns (output: QueueOutput, rx: SignalId, out: seq<Option<Sample>>)
    ensures |out| == |data| + 1 && out[|data|] == None
    ensures forall i :: 0 <= i < |data| ==> out[i] == Some(data[i])
    ensures output.fired == [rx] && output.Valid()
  {
    var input;
    input, output := NewQueue(false);
    ghost var v0 := output.View();
    rx := input.AppendWithSignal(SamplesBuffer(1, 48000, data));
    QueueSpec.AppendKeepsSignalsOnce([], v0, 0, QueueSpec.Entry(SamplesBuffer(1, 48000, data), Some(rx)));
    ghost var v := output.View();
    assert v == QueueSpec.QueueView(Empty, None, [QueueSpec.Entry(SamplesBuffer(1, 48000, data), Some(rx))], false);
    out := PullSamples(output, |data| + 1);
    QueueSpec.SignalOnceAfterItsSound(SamplesBuffer(1, 48000, data), rx);
    assert output.fired == [] + [rx];
  }

  /** `clear` on three pending sounds, the second one signalled, returns 3;
      the queue (keep-alive off, nothing playing) then ends at once, and the
      cleared signal is never sent. Every step keeps each signal fired at
      most once. */
  method ClearScenario(s1: Source, s2: Source, s3: Source) returns (output: QueueOutput, cleared: nat, s: Option<Sample>)
    ensures cleared == 3 && s == None
    ensures output.fired == [] && output.Valid()
  {
    var input;
    input, output := NewQueue(false);
    ghost var v := output.View();
    input.Append(s1);
    QueueSpec.AppendKeepsSignalsOnce([], v, 0, QueueSpec.Entry(s1, None));
    v := output.View();
    var rx := input.AppendWithSignal(s2);
    QueueSpec.AppendKeepsSignalsOnce([], v, 0, QueueSpec.Entry(s2, Some(rx)));
    v := output.View();
    input.Append(s3);
    QueueSpec.AppendKeepsSignalsOnce([], v, 1, QueueSpec.Entry(s3, None));
    v := output.View();
    cleared := input.Clear();
    QueueSpec.ClearKeepsSignalsOnce([], v, 1);
    assert output.View() == QueueSpec.Initial(false) && output.fired == [];
    assert QueueSpec.Pull(QueueSpec.Initial(false)).fired == [];
    s := output.Next();
  }
}
