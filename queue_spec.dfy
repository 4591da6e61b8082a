/** The sequential queue of src/queue.rs as values: the state shared by the
    input and the output half, the output's advance step (`go_next`), one pull
    (`next`), and the properties of repeated pulls. The classes in module Queue
    are proved against these functions. */
module QueueSpec {
  import opened Common
  import opened Sources

  /** Length of the filler silence, and the span length reported when nothing
      better is known. */
  const THRESHOLD: nat := 512

  /** A completion signal is identified by the channel it was created with. */
  type SignalId = nat

  /** A pending sound and its optional completion signal. */
  datatype Entry = Entry(sound: Source, signal: Option<SignalId>)

  /** The queue's whole state: the output's current source and pending signal,
      and the input's pending list and keep-alive flag. */
  datatype QueueView = QueueView(current: Source, signal: Option<SignalId>, pending: seq<Entry>, keepAlive: bool)

  /** What `queue(keep_alive)` builds: an ended current source, no signal and
      nothing pending. */
  function Initial(keepAlive: bool): (v: QueueView)
    ensures !v.current.HasNext() && v.signal.None? && v.pending == [] && v.keepAlive == keepAlive
  {
    QueueView(Empty, None, [], keepAlive)
  }

  /** The silence installed when the queue runs dry with keep-alive on:
      THRESHOLD zero samples, mono, 44100 Hz. */
  function Filler(): (s: Source)
    ensures s.Samples() == seq(THRESHOLD, _ => SILENCE)
    ensures s.Channels() == 1 && s.SampleRate() == 44100 && s.HasNext()
  {
    Zero(1, 44100, THRESHOLD)
  }

  /** All samples of a list of entries, in list order. */
  function Flatten(es: seq<Entry>): seq<Sample>
  {
    if es == [] then [] else es[0].sound.Samples() + Flatten(es[1..])
  }

  /** All signal ids of a list of entries, in list order. */
  function PendingSignals(es: seq<Entry>): seq<SignalId>
  {
    if es == [] then []
    else (if es[0].signal.Some? then [es[0].signal.value] else []) + PendingSignals(es[1..])
  }

  /** Every sample the queue will still play from what it holds now. */
  function Remaining(v: QueueView): seq<Sample>
  {
    v.current.Samples() + Flatten(v.pending)
  }

  /** Every signal still to fire, in the order the queue will fire them. */
  function Signals(v: QueueView): seq<SignalId>
  {
    (if v.signal.Some? then [v.signal.value] else []) + PendingSignals(v.pending)
  }

  predicate AllSilent(s: seq<Sample>)
  {
    forall i :: 0 <= i < |s| ==> s[i] == SILENCE
  }

  /** Ids `i <= j` of `ids` are below `bound`, and differ when `i < j`.
      Kept as a function so that the quantifier in FiredOnce is used only
      where a proof names it. */
  predicate DistinctBelow(ids: seq<SignalId>, i: nat, j: nat, bound: nat)
    requires i <= j < |ids|
  {
    (i < j ==> ids[i] != ids[j]) && ids[i] < bound && ids[j] < bound
  }

  /** Signal ids all distinct and all below `bound`, the next id to be
      created: no signal can be sent twice. */
  predicate FiredOnce(ids: seq<SignalId>, bound: nat)
  {
    forall i, j :: 0 <= i <= j < |ids| ==> DistinctBelow(ids, i, j, bound)
  }

  /** A freshly created id, the current bound, keeps the ids distinct. */
  lemma FreshIdKeepsFiredOnce(ids: seq<SignalId>, bound: nat)
    requires FiredOnce(ids, bound)
    ensures FiredOnce(ids + [bound], bound + 1)
  {
    var ids', next := ids + [bound], bound + 1;
    forall i, j | 0 <= i <= j < |ids'|
      ensures DistinctBelow(ids', i, j, next)
    {
      if j < |ids| {
        assert DistinctBelow(ids, i, j, bound);
      } else if i < |ids| {
        assert DistinctBelow(ids, i, i, bound);
      }
    }
  }

  /** `current_span_len`, first applicable rule wins. */
  function SpanLen(v: QueueView): (r: nat)
    ensures r > 0
  {
    var c := v.current;
    if c.SpanLen().Some? && c.SpanLen().value != 0 then c.SpanLen().value
    else if c.SpanLen().Some? && v.keepAlive && v.pending == [] then THRESHOLD
    else if c.LowerBound() > 0 then c.LowerBound()
    else THRESHOLD
  }

  /** Result of `go_next`: whether playing continues, the new state, and the
      signals sent during the step. */
  datatype Advance = Advance(ok: bool, view: QueueView, fired: seq<SignalId>)

  /** `go_next`: send the current source's signal (a failed send is ignored),
      then take the front pending entry, or install the filler when the list
      is empty and keep-alive is on, or end. */
  function GoNext(v: QueueView): (a: Advance)
    ensures a.view.keepAlive == v.keepAlive
    ensures a.fired == (if v.signal.Some? then [v.signal.value] else [])
    ensures v.pending != [] ==> a.view.signal == v.pending[0].signal
    ensures v.pending == [] ==> a.view.signal.None?
    ensures !a.ok <==> v.pending == [] && !v.keepAlive
    ensures !a.ok ==> a.view.current == v.current
    ensures a.ok && v.pending != [] ==> a.view.current == v.pending[0].sound && a.view.pending == v.pending[1..]
    ensures a.ok && v.pending == [] ==> a.view.current == Filler() && a.view.pending == []
  {
    var fired := if v.signal.Some? then [v.signal.value] else [];
    if v.pending == [] then
      if v.keepAlive then Advance(true, v.(current := Filler(), signal := None), fired)
      else Advance(false, v.(signal := None), fired)
    else
      Advance(true, v.(current := v.pending[0].sound, signal := v.pending[0].signal, pending := v.pending[1..]), fired)
  }

  /** Result of one `next` call: the sample (None at the end of the stream),
      the new state and the signals sent. */
  datatype Pulled = Pulled(sample: Option<Sample>, view: QueueView, fired: seq<SignalId>)

  /** `next`: take a sample from the current source, advancing with `go_next`
      as long as the current source is exhausted and `go_next` succeeds. */
  function Pull(v: QueueView): Pulled
    decreases |v.pending|, if v.current.HasNext() then 0 else 1
  {
    match v.current.Next()
    case Some((x, rest)) => Pulled(Some(x), v.(current := rest), [])
    case None =>
      var a := GoNext(v);
      if !a.ok then Pulled(None, a.view, a.fired)
      else
        var p := Pull(a.view);
        Pulled(p.sample, p.view, a.fired + p.fired)
  }

  /** While the current source has samples, a pull takes its next one and
      sends nothing. */
  lemma PullTakes(v: QueueView)
    requires v.current.HasNext()
    ensures Pull(v) == Pulled(Some(v.current.Next().value.0), v.(current := v.current.Next().value.1), [])
  {
  }

  /** When the current source is exhausted and `go_next` fails, a pull ends
      the stream after that step. */
  lemma PullEnds(v: QueueView)
    requires !v.current.HasNext() && !GoNext(v).ok
    ensures Pull(v) == Pulled(None, GoNext(v).view, GoNext(v).fired)
  {
  }

  /** When the current source is exhausted and `go_next` succeeds, a pull is
      that step followed by a pull from the new state. */
  lemma PullAfterAdvance(v: QueueView)
    requires !v.current.HasNext() && GoNext(v).ok
    ensures var p := Pull(GoNext(v).view);
      Pull(v) == Pulled(p.sample, p.view, GoNext(v).fired + p.fired)
  {
  }

  /** The outputs, final state and signals of `n` consecutive pulls. */
  datatype Trace = Trace(out: seq<Option<Sample>>, view: QueueView, fired: seq<SignalId>)

  function Run(v: QueueView, n: nat): Trace
    decreases n
  {
    if n == 0 then Trace([], v, [])
    else
      var p := Pull(v);
      var t := Run(p.view, n - 1);
      Trace([p.sample] + t.out, t.view, p.fired + t.fired)
  }

  /** What a pull yields once nothing is left to play. */
  function AtEnd(keepAlive: bool): Option<Sample>
  {
    if keepAlive then Some(SILENCE) else None
  }

  // ---------------------------------------------------------------------
  // Appending and clearing, on the pending list
  // ---------------------------------------------------------------------

  /** `append`/`append_with_signal` put the new sound's samples after every
      sample already queued. */
  lemma {:induction false} FlattenAppend(es: seq<Entry>, e: Entry)
    ensures Flatten(es + [e]) == Flatten(es) + e.sound.Samples()
  {
    if es == [] {
      assert es + [e] == [e];
    } else {
      assert (es + [e])[1..] == es[1..] + [e];
      FlattenAppend(es[1..], e);
      AppendAssoc(es[0].sound.Samples(), Flatten(es[1..]), e.sound.Samples());
    }
  }

  /** ... and its signal after every signal already queued. */
  lemma {:induction false} PendingSignalsAppend(es: seq<Entry>, e: Entry)
    ensures PendingSignals(es + [e]) == PendingSignals(es) + (if e.signal.Some? then [e.signal.value] else [])
  {
    if es == [] {
      assert es + [e] == [e];
    } else {
      assert (es + [e])[1..] == es[1..] + [e];
      PendingSignalsAppend(es[1..], e);
      AppendAssoc(if es[0].signal.Some? then [es[0].signal.value] else [], PendingSignals(es[1..]),
        if e.signal.Some? then [e.signal.value] else []);
    }
  }

  /** A prefix of ids fired at most once is itself fired at most once. */
  lemma FiredOncePrefix(ids: seq<SignalId>, k: nat, bound: nat)
    requires FiredOnce(ids, bound) && k <= |ids|
    ensures FiredOnce(ids[..k], bound)
  {
    var pre := ids[..k];
    forall i, j | 0 <= i <= j < |pre|
      ensures DistinctBelow(pre, i, j, bound)
    {
      assert DistinctBelow(ids, i, j, bound);
    }
  }

  /** Appending to the view adds exactly the new sound at the end of what the
      queue will play and the new signal at the end of what it will fire. */
  lemma AppendEnqueues(v: QueueView, e: Entry)
    ensures Remaining(v.(pending := v.pending + [e])) == Remaining(v) + e.sound.Samples()
    ensures Signals(v.(pending := v.pending + [e])) == Signals(v) + (if e.signal.Some? then [e.signal.value] else [])
  {
    FlattenAppend(v.pending, e);
    PendingSignalsAppend(v.pending, e);
    AppendAssoc(v.current.Samples(), Flatten(v.pending), e.sound.Samples());
    AppendAssoc(if v.signal.Some? then [v.signal.value] else [], PendingSignals(v.pending),
      if e.signal.Some? then [e.signal.value] else []);
  }

  /** `append` keeps every signal fired at most once, and so does
      `append_with_signal`, whose signal is the freshly created id `bound`,
      after which the next id is `bound + 1`. */
  lemma AppendKeepsSignalsOnce(log: seq<SignalId>, v: QueueView, bound: nat, e: Entry)
    requires SignalsOnce(log, v, bound)
    requires e.signal.None? || e.signal.value == bound
    ensures SignalsOnce(log, v.(pending := v.pending + [e]), if e.signal.Some? then bound + 1 else bound)
  {
    var v' := v.(pending := v.pending + [e]);
    AppendEnqueues(v, e);
    if e.signal.Some? {
      assert Signals(v') == Signals(v) + [bound];
      AppendAssoc(log, Signals(v), [bound]);
      FreshIdKeepsFiredOnce(log + Signals(v), bound);
      assert log + Signals(v') == log + Signals(v) + [bound];
    } else {
      assert Signals(v') == Signals(v) + [];
      assert log + Signals(v') == log + Signals(v);
    }
  }

  /** `clear` drops the pending signals, which are then never sent: every
      signal is still fired at most once. */
  lemma ClearKeepsSignalsOnce(log: seq<SignalId>, v: QueueView, bound: nat)
    requires SignalsOnce(log, v, bound)
    ensures SignalsOnce(log, v.(pending := []), bound)
    ensures Signals(v.(pending := [])) == (if v.signal.Some? then [v.signal.value] else [])
  {
    var head := if v.signal.Some? then [v.signal.value] else [];
    var all := log + Signals(v);
    assert Signals(v) == head + PendingSignals(v.pending);
    AppendAssoc(log, head, PendingSignals(v.pending));
    assert all[..|log| + |head|] == log + head;
    FiredOncePrefix(all, |log| + |head|, bound);
    assert Signals(v.(pending := [])) == head + [];
    assert log + Signals(v.(pending := [])) == log + head;
  }

  // ---------------------------------------------------------------------
  // One pull
  // ---------------------------------------------------------------------

  /** A pull plays the next queued sample; once nothing is queued it plays
      silence with keep-alive on, and ends (keeping the current source) with
      keep-alive off. The flag itself is never changed by the output. */
  lemma {:induction false} PullPlaysInOrder(v: QueueView)
    ensures Pull(v).view.keepAlive == v.keepAlive
    ensures Remaining(v) != [] ==>
      Pull(v).sample == Some(Remaining(v)[0]) && Remaining(Pull(v).view) == Remaining(v)[1..]
    ensures Remaining(v) == [] && !v.keepAlive ==>
      Pull(v).sample == None && Remaining(Pull(v).view) == [] && Pull(v).view.pending == []
    ensures Remaining(v) == [] && v.keepAlive ==>
      Pull(v).sample == Some(SILENCE) && AllSilent(Remaining(Pull(v).view)) && Pull(v).view.pending == []
    decreases |v.pending|, if v.current.HasNext() then 0 else 1
  {
    var R := Remaining(v);
    v.current.NextTakesFirst();
    match v.current.Next()
    case Some((x, rest)) =>
      assert R == v.current.Samples() + Flatten(v.pending);
    case None =>
      var a := GoNext(v);
      if v.pending == [] {
        assert R == [];
        if v.keepAlive {
          var p := Pull(a.view);
          a.view.current.NextTakesFirst();
          assert a.view.current.Next() == Some((SILENCE, Zero(1, 44100, THRESHOLD - 1)));
          assert p.view.current == Zero(1, 44100, THRESHOLD - 1);
          assert Remaining(p.view) == seq(THRESHOLD - 1, _ => SILENCE);
        }
      } else {
        assert Remaining(a.view) == R;
        PullPlaysInOrder(a.view);
      }
  }

  /** The signals a pull sends are exactly the first ones still to fire, in
      order; the rest are still owed afterwards. With distinct ids this means
      each signal fires once, in the order its sound was queued. A signal is
      sent only when the current source is exhausted. */
  lemma {:induction false} PullFiresInOrder(v: QueueView)
    ensures Signals(v) == Pull(v).fired + Signals(Pull(v).view)
    ensures v.current.HasNext() ==> Pull(v).fired == []
    decreases |v.pending|, if v.current.HasNext() then 0 else 1
  {
    match v.current.Next()
    case Some((x, rest)) =>
      assert Pull(v) == Pulled(Some(x), v.(current := rest), []);
    case None =>
      var a := GoNext(v);
      GoNextFiresInOrder(v);
      if v.pending == [] {
        if v.keepAlive {
          assert Pull(a.view).fired == [] && Pull(a.view).view.signal == None;
        }
        assert Signals(Pull(v).view) == [];
      } else {
        var p := Pull(a.view);
        PullFiresInOrder(a.view);
        assert Pull(v).fired == a.fired + p.fired && Pull(v).view == p.view;
        AppendAssoc(a.fired, p.fired, Signals(p.view));
      }
  }

  /** `go_next` sends the current source's signal, the first one owed, and
      leaves the rest owed in the same order. */
  lemma GoNextFiresInOrder(v: QueueView)
    ensures Signals(v) == GoNext(v).fired + Signals(GoNext(v).view)
  {
    if v.pending != [] {
      assert PendingSignals(v.pending) ==
        (if v.pending[0].signal.Some? then [v.pending[0].signal.value] else []) + PendingSignals(v.pending[1..]);
    }
  }

  /** The signals sent so far, `log`, and those `v` still owes are together
      fired at most once. */
  predicate SignalsOnce(log: seq<SignalId>, v: QueueView, bound: nat)
  {
    FiredOnce(log + Signals(v), bound)
  }

  /** `go_next` keeps every signal fired at most once. */
  lemma GoNextKeepsSignalsOnce(v: QueueView, log: seq<SignalId>, bound: nat)
    requires SignalsOnce(log, v, bound)
    ensures SignalsOnce(log + GoNext(v).fired, GoNext(v).view, bound)
  {
    GoNextFiresInOrder(v);
    AppendAssoc(log, GoNext(v).fired, Signals(GoNext(v).view));
  }

  /** A pull keeps every signal fired at most once. */
  lemma PullKeepsSignalsOnce(v: QueueView, log: seq<SignalId>, bound: nat)
    requires SignalsOnce(log, v, bound)
    ensures SignalsOnce(log + Pull(v).fired, Pull(v).view, bound)
  {
    var p := Pull(v);
    PullFiresInOrder(v);
    AppendAssoc(log, p.fired, Signals(p.view));
  }

  /** Any number of pulls keeps every signal fired at most once. */
  lemma {:induction false} RunKeepsSignalsOnce(v: QueueView, n: nat, log: seq<SignalId>, bound: nat)
    requires SignalsOnce(log, v, bound)
    ensures SignalsOnce(log + Run(v, n).fired, Run(v, n).view, bound)
    decreases n
  {
    if n == 0 {
      assert log + Run(v, n).fired == log;
    } else {
      var p := Pull(v);
      var t := Run(p.view, n - 1);
      assert Run(v, n).fired == p.fired + t.fired && Run(v, n).view == t.view;
      PullKeepsSignalsOnce(v, log, bound);
      RunKeepsSignalsOnce(p.view, n - 1, log + p.fired, bound);
      AppendAssoc(log, p.fired, t.fired);
    }
  }

  /** Once nothing is left to play, the next pull sends every signal still
      owed: it runs `go_next` through every pending (empty) sound. */
  lemma {:induction false} PullAtEndFiresAll(v: QueueView)
    requires Remaining(v) == []
    ensures Pull(v).fired == Signals(v)
    decreases |v.pending|
  {
    v.current.NextTakesFirst();
    var a := GoNext(v);
    GoNextFiresInOrder(v);
    if v.pending == [] {
      if v.keepAlive {
        assert Pull(a.view).fired == [];
        assert Pull(v).fired == a.fired + [];
      }
    } else {
      assert Remaining(a.view) == [];
      PullAtEndFiresAll(a.view);
    }
  }

  /** Every signal owed is sent: pulling everything that remains and one
      more sends exactly the signals owed, in order. */
  lemma {:induction false} RunFiresAll(v: QueueView)
    ensures Run(v, |Remaining(v)| + 1).fired == Signals(v)
    decreases |Remaining(v)|
  {
    var n := |Remaining(v)|;
    var p := Pull(v);
    if n == 0 {
      PullAtEndFiresAll(v);
      assert Run(v, 1).fired == p.fired + [];
    } else {
      PullPlaysInOrder(v);
      PullFiresInOrder(v);
      RunFiresAll(p.view);
      assert Run(v, n + 1).fired == p.fired + Run(p.view, n).fired;
    }
  }

  /** Keep-alive on: a pull never ends the stream. */
  lemma KeepAliveNeverEnds(v: QueueView)
    requires v.keepAlive
    ensures Pull(v).sample.Some? && Pull(v).view.keepAlive
  {
    PullPlaysInOrder(v);
  }

  // ---------------------------------------------------------------------
  // Many pulls
  // ---------------------------------------------------------------------

  /** The queue plays everything it holds, in order (the current source, then
      each pending sound in append order), and then ends (keep-alive off) or
      plays silence for ever (keep-alive on). */
  lemma {:induction false} RunPlaysInOrder(v: QueueView, n: nat)
    ensures |Run(v, n).out| == n && Run(v, n).view.keepAlive == v.keepAlive
    ensures forall i :: 0 <= i < n ==>
      Run(v, n).out[i] == (if i < |Remaining(v)| then Some(Remaining(v)[i]) else AtEnd(v.keepAlive))
    decreases n
  {
    if n > 0 {
      var p := Pull(v);
      var t := Run(p.view, n - 1);
      PullPlaysInOrder(v);
      RunPlaysInOrder(p.view, n - 1);
      var R, R' := Remaining(v), Remaining(p.view);
      forall i | 0 <= i < n
        ensures Run(v, n).out[i] == (if i < |R| then Some(R[i]) else AtEnd(v.keepAlive))
      {
        if i > 0 {
          assert Run(v, n).out[i] == t.out[i - 1];
          if R == [] && v.keepAlive {
            assert i - 1 < |R'| ==> R'[i - 1] == SILENCE;
          }
        }
      }
    }
  }

  /** Over any number of pulls the signals sent are a prefix of those owed,
      in order, and the rest are still owed. */
  lemma {:induction false} RunFiresInOrder(v: QueueView, n: nat)
    ensures Signals(v) == Run(v, n).fired + Signals(Run(v, n).view)
    decreases n
  {
    if n > 0 {
      var p := Pull(v);
      PullFiresInOrder(v);
      RunFiresInOrder(p.view, n - 1);
    }
  }

  /** A signal is sent only after the last sample of its source is played:
      none during the `k` pulls that play those samples, and it is the first
      one sent by the next pull. */
  lemma {:induction false} SignalAfterLastSample(v: QueueView)
    requires v.signal.Some?
    ensures Run(v, |v.current.Samples()|).fired == []
    ensures Run(v, |v.current.Samples()| + 1).fired != []
    ensures Run(v, |v.current.Samples()| + 1).fired[0] == v.signal.value
    decreases |v.current.Samples()|
  {
    var k := |v.current.Samples()|;
    v.current.NextTakesFirst();
    match v.current.Next()
    case Some((x, rest)) =>
      var p := Pull(v);
      assert p.view == v.(current := rest) && p.fired == [];
      SignalAfterLastSample(p.view);
    case None =>
      var p := Pull(v);
      assert p.fired[0] == v.signal.value;
  }

  /** A sound with `k` samples appended with signal `rx` to a fresh queue
      (keep-alive off): the first `k` pulls play it and send nothing, the next
      one ends the stream and sends `rx`, exactly once. */
  lemma SignalOnceAfterItsSound(s: Source, rx: SignalId)
    ensures var v := QueueView(Empty, None, [Entry(s, Some(rx))], false);
      var k := |s.Samples()|;
      Run(v, k).fired == [] && Run(v, k + 1).fired == [rx] &&
      |Run(v, k + 1).out| == k + 1 && Run(v, k + 1).out[k] == None &&
      forall i :: 0 <= i < k ==> Run(v, k + 1).out[i] == Some(s.Samples()[i])
  {
    var v := QueueView(Empty, None, [Entry(s, Some(rx))], false);
    var k := |s.Samples()|;
    var v1 := QueueView(s, Some(rx), [], false);
    assert GoNext(v) == Advance(true, v1, []);
    assert Pull(v) == Pull(v1);
    assert Run(v, k + 1) == Run(v1, k + 1);
    assert k > 0 ==> Run(v, k) == Run(v1, k);
    SignalAfterLastSample(v1);
    RunFiresInOrder(v1, k + 1);
    assert Signals(v1) == [rx];
    RunPlaysInOrder(v1, k + 1);
    assert Remaining(v1) == s.Samples();
  }

  /** Entries for `sources`, in order, none of them signalled. */
  function Unsignalled(sources: seq<Source>): (es: seq<Entry>)
    ensures |es| == |sources|
    ensures forall k :: 0 <= k < |sources| ==> es[k] == Entry(sources[k], None)
    ensures PendingSignals(es) == []
  {
    if sources == [] then [] else [Entry(sources[0], None)] + Unsignalled(sources[1..])
  }

  /** One more source adds one more unsignalled entry at the end. */
  lemma UnsignalledSnoc(sources: seq<Source>, i: nat)
    requires i < |sources|
    ensures Unsignalled(sources[..i + 1]) == Unsignalled(sources[..i]) + [Entry(sources[i], None)]
  {
    var l, r := Unsignalled(sources[..i + 1]), Unsignalled(sources[..i]) + [Entry(sources[i], None)];
    assert |l| == |r|;
    forall k | 0 <= k < |l| ensures l[k] == r[k] {
      assert sources[..i + 1][k] == sources[k];
    }
  }

  /** The `keep_alive` test on values: a fresh keep-alive queue holding one
      buffer plays the buffer and then silence on every further pull. */
  lemma KeepAlivePlays(data: seq<Sample>, extra: nat)
    ensures var o := Run(QueueView(Empty, None, Unsignalled([SamplesBuffer(1, 48000, data)]), true), |data| + extra).out;
      |o| == |data| + extra &&
      (forall i :: 0 <= i < |data| ==> o[i] == Some(data[i])) &&
      (forall i :: |data| <= i < |o| ==> o[i] == Some(SILENCE))
  {
    var v := QueueView(Empty, None, Unsignalled([SamplesBuffer(1, 48000, data)]), true);
    assert v.pending == [Entry(SamplesBuffer(1, 48000, data), None)];
    assert Flatten(v.pending) == data + [];
    assert Remaining(v) == data;
    RunPlaysInOrder(v, |data| + extra);
  }

  /** Two buffers queued one after the other, keep-alive off: they are played
      back to back in queue order, and then the stream ends. */
  lemma FifoPlays(a: seq<Sample>, b: seq<Sample>)
    ensures var o := Run(QueueView(Empty, None, Unsignalled([SamplesBuffer(1, 48000, a), SamplesBuffer(2, 96000, b)]), false),
                         |a| + |b| + 1).out;
      |o| == |a| + |b| + 1 &&
      (forall i :: 0 <= i < |a| + |b| ==> o[i] == Some((a + b)[i])) &&
      o[|a| + |b|] == None
  {
    var es := Unsignalled([SamplesBuffer(1, 48000, a), SamplesBuffer(2, 96000, b)]);
    assert es == [Entry(SamplesBuffer(1, 48000, a), None), Entry(SamplesBuffer(2, 96000, b), None)];
    var v := QueueView(Empty, None, es, false);
    assert es[1..][1..] == [];
    assert Flatten(es[1..]) == b + [];
    assert Flatten(es) == a + Flatten(es[1..]);
    assert Remaining(v) == a + b;
    RunPlaysInOrder(v, |a| + |b| + 1);
  }

  /** With keep-alive off, a freshly built queue ends on the first pull, and
      after that keeps ending. */
  lemma ImmediateEnd(n: nat)
    ensures Run(Initial(false), n).out == seq(n, _ => None)
  {
    RunPlaysInOrder(Initial(false), n);
  }

  // ---------------------------------------------------------------------
  // Span length
  // ---------------------------------------------------------------------

  /** While the current source still plays and its hints are exact, the
      span reported ends where that source ends. */
  lemma SpanEndsWithSource(v: QueueView)
    requires v.current.HasNext() && v.current.ExactHints()
    ensures SpanLen(v) == |v.current.Samples()|
  {
  }

  /** At the boundary itself, once the current source has run out and
      before the next pull moves on, a source with exact hints gets the span
      512, whatever the next sound holds: the queue does not look ahead. */
  lemma SpanAtBoundary(v: QueueView)
    requires !v.current.HasNext() && v.current.ExactHints()
    ensures SpanLen(v) == THRESHOLD
  {
  }

  /** Pulling `n` samples from a playing buffer that holds at least `n`
      leaves the rest of the buffer playing and the list untouched. */
  lemma {:induction false} RunWithinBuffer(c: ChannelCount, r: SampleRate, d: seq<Sample>, pending: seq<Entry>, keepAlive: bool, n: nat)
    requires n <= |d|
    ensures Run(QueueView(SamplesBuffer(c, r, d), None, pending, keepAlive), n).view ==
      QueueView(SamplesBuffer(c, r, d[n..]), None, pending, keepAlive)
    decreases n
  {
    if n > 0 {
      var v := QueueView(SamplesBuffer(c, r, d), None, pending, keepAlive);
      assert Pull(v).view == QueueView(SamplesBuffer(c, r, d[1..]), None, pending, keepAlive);
      RunWithinBuffer(c, r, d[1..], pending, keepAlive, n - 1);
      assert d[1..][n - 1..] == d[n..];
    }
  }

  /** Two buffers queued with keep-alive off, the second shorter than 512
      samples: once the first has been played, the span reported is 512,
      one span across the boundary and past the end of the second sound. */
  lemma SpanAcrossBoundary(a: seq<Sample>, b: seq<Sample>)
    requires |a| > 0 && |b| < THRESHOLD
    ensures var v := Run(QueueView(Empty, None, Unsignalled([SamplesBuffer(1, 48000, a), SamplesBuffer(1, 48000, b)]), false), |a|).view;
      !v.current.HasNext() && v.pending != [] && SpanLen(v) == THRESHOLD && THRESHOLD > |Remaining(v)|
  {
    var es := Unsignalled([SamplesBuffer(1, 48000, a), SamplesBuffer(1, 48000, b)]);
    var e2 := Entry(SamplesBuffer(1, 48000, b), None);
    assert es == [Entry(SamplesBuffer(1, 48000, a), None), e2];
    var v0 := QueueView(Empty, None, es, false);
    var v1 := QueueView(SamplesBuffer(1, 48000, a[1..]), None, [e2], false);
    assert Pull(v0).view == v1 by {
      assert GoNext(v0).view == QueueView(SamplesBuffer(1, 48000, a), None, [e2], false);
    }
    assert Run(v0, |a|).view == Run(v1, |a| - 1).view;
    RunWithinBuffer(1, 48000, a[1..], [e2], false, |a| - 1);
    var v := Run(v0, |a|).view;
    assert v.current == SamplesBuffer(1, 48000, []);
    assert Flatten([e2]) == b + Flatten([]);
    assert Remaining(v) == b;
  }

  /** A source reporting no span and a lower bound of 0 gets the span 512,
      whatever it holds: with 10 samples the span runs past its end, with
      1000 it ends inside it. */
  lemma SpanWithoutHints(data: seq<Sample>, keepAlive: bool)
    requires |data| > 0
    ensures !Opaque(1, 48000, data, []).ExactHints()
    ensures var v := QueueView(Opaque(1, 48000, data, []), None, [], keepAlive);
      SpanLen(v) == THRESHOLD
  {
  }

  /** When the current source is exhausted, nothing is pending and keep-alive
      is on, `go_next` installs the filler; if the exhausted source's hints
      are exact, the span reported is the filler's length. */
  lemma SpanAnnouncesFiller(v: QueueView)
    requires !v.current.HasNext() && v.pending == [] && v.keepAlive
    ensures GoNext(v).ok && |GoNext(v).view.current.Samples()| == THRESHOLD
    ensures v.current.ExactHints() ==> SpanLen(v) == THRESHOLD
  {
  }

  /** SpanLen follows the rules in priority order. */
  lemma SpanLenRules(v: QueueView)
    ensures v.current.SpanLen().Some? && v.current.SpanLen().value > 0 ==> SpanLen(v) == v.current.SpanLen().value
    ensures v.current.SpanLen() == Some(0) && v.keepAlive && v.pending == [] ==> SpanLen(v) == THRESHOLD
    ensures (!(v.current.SpanLen().Some? && (v.current.SpanLen().value != 0 || (v.keepAlive && v.pending == [])))
             && v.current.LowerBound() > 0) ==> SpanLen(v) == v.current.LowerBound()
    ensures (!(v.current.SpanLen().Some? && (v.current.SpanLen().value != 0 || (v.keepAlive && v.pending == [])))
             && v.current.LowerBound() == 0) ==> SpanLen(v) == THRESHOLD
  {
  }
}
