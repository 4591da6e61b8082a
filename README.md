# rodio: the sequential sound queue and output-stream negotiation

This project models two parts of the rodio audio playback library and proves
properties of them in Dafny.

**The sequential queue (`src/queue.rs`).** A queue has two halves:
- The shared *input* holds a FIFO list of pending sounds. Each sound may carry a
  completion signal. The input also holds a keep-alive flag.
- The *output* is itself a sample source. It plays its current sound. When that
  sound runs out, `go_next` does three things:
  - it sends the finished sound's signal;
  - it takes the next pending sound;
  - if nothing is pending, it installs 512 samples of mono 44100 Hz silence when
    keep-alive is on, and ends the stream when it is off.

The model has two levels:
- Module `QueueSpec` describes the queue as values: the state (`QueueView`), one
  `go_next` step (`GoNext`), one `next` call (`Pull`) and `n` calls (`Run`).
- Module `Queue` has the classes `QueueInput` and `QueueOutput`. Their methods
  update fields in place and are proved against those functions.

Completion channels are numbered from a counter on the input. A ghost log
`fired` on the output records each signal sent. The invariant `Valid` says that
every signal is sent at most once. Module `Sources` holds the sources the
queue plays: the three kinds it creates or is fed with in its tests (an
in-memory buffer, a counted silence and an ended source) and a general source
whose span and size hints are free data.

**Opening an output stream (`src/stream.rs`).** Module `Stream` covers:
- the builder, its default configuration and its setters;
- the buffer-size clamp;
- the list of fallback configurations of a device;
- the search of `try_open_stream` over configurations, and of
  `try_default_stream` over devices, and the error each returns;
- the data callback that fills a device buffer.

The audio host is a record of functions, one for each of its answers: default
device, device list, default and supported configurations, building a stream,
starting it.

## Model

| member | source | states |
|---|---|---|
| Queue.NewQueue | src/queue.rs:27-40 | a new queue has nothing pending, an ended current source and no signal; it keeps the given keep-alive flag, and the signal invariant holds |
| QueueSpec.Initial | src/queue.rs:27-40 | the initial state has an exhausted current source, no signal, an empty list and the given flag |
| QueueSpec.ImmediateEnd | src/queue.rs:270-274 | with keep-alive off, every pull from a fresh queue returns None |
| Queue.ImmediateEndScenario | src/queue.rs:270-274 | the first `next` of a fresh queue with keep-alive off is None |
| Queue.QueueInput.Append | src/queue.rs:58-66 | exactly one entry without a signal is added at the end; nothing else changes |
| Queue.QueueInput.AppendWithSignal | src/queue.rs:74-84 | exactly one entry is added at the end, carrying a fresh signal id that is returned |
| QueueSpec.FlattenAppend | src/queue.rs:58-66 | the appended sound's samples come after every sample already pending |
| QueueSpec.PendingSignalsAppend | src/queue.rs:74-84 | the appended signal comes after every signal already pending |
| QueueSpec.AppendEnqueues | src/queue.rs:74-84 | appending adds the sound at the end of everything still to play, and its signal at the end of everything still owed |
| QueueSpec.FreshIdKeepsFiredOnce | src/queue.rs:78 | a newly created channel's id keeps all signal ids distinct |
| QueueSpec.AppendKeepsSignalsOnce | src/queue.rs:58-84 | `append` and `append_with_signal` (whose signal is the freshly created id, after which the counter moves on) keep every signal sent at most once |
| QueueSpec.FiredOncePrefix | src/queue.rs:95-100 | proof step for `clear`: dropping the tail of a list of ids sent at most once keeps them sent at most once |
| Queue.QueueInput.SetKeepAliveIfEmpty | src/queue.rs:89-92 | sets the flag and nothing else |
| Queue.QueueInput.Clear | src/queue.rs:95-100 | returns the number of pending entries before the call and leaves the list empty; the output is untouched |
| QueueSpec.ClearKeepsSignalsOnce | src/queue.rs:95-100 | `clear` keeps every signal sent at most once; the signals still owed are then only the current sound's, so the pending sounds' signals are never sent |
| Queue.ClearScenario | src/queue.rs:95-100 | clearing three pending sounds, the second one signalled, returns 3; with keep-alive off the next pull is None, the cleared signal is never sent, and every step keeps the signal invariant |
| QueueSpec.SpanLen | src/queue.rs:118-152 | the span length reported is always positive |
| QueueSpec.SpanLenRules | src/queue.rs:130-151 | the four rules of `current_span_len` as implications, first applicable wins: the source's non-zero span; 512 when the span is 0, nothing is pending and keep-alive is on; otherwise (no span, or a span of 0 not followed by the filler) the positive size-hint lower bound, else 512 |
| QueueSpec.SpanEndsWithSource | src/queue.rs:119-151 | while a sound plays and its hints are exact (its span, or with no span its size-hint lower bound, is what it has left), the reported span ends where it ends |
| QueueSpec.SpanAtBoundary | src/queue.rs:143-151 | at the boundary itself (current source run out, before the next pull) a source with exact hints gets the span 512, whatever the next sound holds |
| QueueSpec.SpanAcrossBoundary | src/queue.rs:143-151 | two buffers, keep-alive off, the second shorter than 512 samples: once the first is played the span is 512, across the boundary and past the end of the second |
| QueueSpec.RunWithinBuffer | src/queue.rs:191-193 | proof step: pulling `n` samples from a playing buffer holding at least `n` leaves the rest of it playing and the list untouched |
| Sources.Source.KnownKindsExact | src/queue.rs:119-128 | a buffer, a counted silence and an ended source report exact hints, so while one of them plays the reported span ends where it ends |
| QueueSpec.SpanWithoutHints | src/queue.rs:143-151 | a source reporting no span and a size-hint lower bound of 0 does not report exact hints, and gets the span 512 whatever it holds, running past its end or stopping inside it |
| QueueSpec.SpanAnnouncesFiller | src/queue.rs:134-139 | with the source exhausted, nothing pending and keep-alive on, `go_next` installs the 512-sample filler, and when the exhausted source's hints are exact the span reported is 512 |
| Queue.QueueOutput.CurrentSpanLen | src/queue.rs:118-152 | returns the positive span length of the state, and what is left of the current source while it plays and its hints are exact |
| Queue.QueueOutput.Channels | src/queue.rs:155-157 | the current source's channel count |
| Queue.QueueOutput.SampleRate | src/queue.rs:160-162 | the current source's sample rate |
| Queue.QueueOutput.TotalDuration | src/queue.rs:165-167 | always None |
| Queue.QueueOutput.TrySeek | src/queue.rs:179-181 | seeks only within the current source: the current source becomes what its own seek leaves, on success and on error alike, and that seek's result is passed on |
| Queue.QueueOutput.SizeHint | src/queue.rs:204-206 | the current source's lower bound with no upper bound; the bound never exceeds what the queue still plays |
| Sources.Source.LowerBound | src/queue.rs:143-148 | a source's size-hint lower bound never exceeds the samples it still holds: exact for a buffer, 0 for a silence or ended source, the reported one for a general source |
| Sources.Source.NextTakesFirst | src/queue.rs:191-193 | a source's `next` yields its first remaining sample and leaves the rest in a source of the same format |
| QueueSpec.Filler | src/queue.rs:222-226 | the keep-alive filler is 512 zero samples, mono, 44100 Hz |
| QueueSpec.GoNext | src/queue.rs:214-238 | `go_next` sends the old signal and clears it; it takes the front entry and its signal (FIFO), installs the filler when the list is empty and keep-alive is on, and fails, leaving the current source, exactly when the list is empty and keep-alive is off |
| Queue.QueueOutput.GoNext | src/queue.rs:214-238 | the in-place step makes exactly the state change and sends exactly the signals of `QueueSpec.GoNext`, and keeps every signal sent at most once |
| QueueSpec.GoNextFiresInOrder | src/queue.rs:215-217 | the signal sent is the first one owed, and the rest stay owed in order |
| QueueSpec.GoNextKeepsSignalsOnce | src/queue.rs:215-217 | `go_next` keeps every signal sent at most once |
| QueueSpec.Pull | src/queue.rs:188-201 | `next` as a value: takes a sample from the current source, and while that source is exhausted and `go_next` succeeds, loops on the new state; its properties are the lemmas below |
| QueueSpec.PullTakes | src/queue.rs:191-193 | proof step unfolding `Pull`: while the current source has samples, `next` returns its next one and sends nothing |
| QueueSpec.PullEnds | src/queue.rs:197-199 | proof step unfolding `Pull`: when the source is exhausted and `go_next` fails, `next` returns None |
| QueueSpec.PullAfterAdvance | src/queue.rs:189-200 | proof step unfolding `Pull`: when the source is exhausted and `go_next` succeeds, `next` loops on the new state |
| Queue.QueueOutput.Next | src/queue.rs:188-201 | the loop returns exactly the sample, new state and signals of one pull, and keeps every signal sent at most once |
| QueueSpec.PullPlaysInOrder | src/queue.rs:188-201 | a pull plays the next sample still queued; with nothing left it returns silence when keep-alive is on and None when it is off |
| QueueSpec.PullFiresInOrder | src/queue.rs:188-201 | the signals a pull sends are the first ones owed, in order; none is sent while the current source still has samples |
| QueueSpec.PullKeepsSignalsOnce | src/queue.rs:188-201 | a pull keeps every signal sent at most once |
| QueueSpec.KeepAliveNeverEnds | src/queue.rs:222-226 | with keep-alive on, `next` never returns None |
| Queue.PullSamples | src/queue.rs:188-201 | `n` calls of `next` give exactly the outputs, final state and signals of `n` pulls, and keep the signal invariant |
| QueueSpec.Run | src/queue.rs:188-201 | `n` consecutive calls of `next` as a value: outputs, final state and signals; its properties are the lemmas below |
| QueueSpec.RunPlaysInOrder | src/queue.rs:188-201 | `n` pulls play the current source, then every pending sound in append order, then None forever (keep-alive off) or silence forever (keep-alive on) |
| QueueSpec.RunFiresInOrder | src/queue.rs:215-217 | the signals sent over any number of pulls are a prefix of those owed, in queue order |
| QueueSpec.RunKeepsSignalsOnce | src/queue.rs:215-217 | any number of pulls keeps every signal sent at most once |
| QueueSpec.PullAtEndFiresAll | src/queue.rs:195-217 | once nothing is left to play, the next pull sends every signal still owed, in order |
| QueueSpec.RunFiresAll | src/queue.rs:215-217 | every signal owed is delivered: pulling everything that remains and one more sends exactly the signals owed, in queue order |
| QueueSpec.SignalAfterLastSample | src/queue.rs:195-217 | a sound's signal is not sent while its samples play, and is the first one sent by the pull after them |
| QueueSpec.SignalOnceAfterItsSound | src/queue.rs:74-84 | a sound appended with signal `rx` to a fresh queue plays in full, and then the stream ends and `rx` is sent exactly once |
| Queue.SignalScenario | src/queue.rs:74-84 | through the objects: the samples are played, then None, the log holds `rx` exactly once, and the signal invariant holds |
| QueueSpec.Unsignalled | src/queue.rs:58-66 | the entries `append` creates for a list of sounds: one per sound, in order, none signalled, so none owes a signal |
| QueueSpec.UnsignalledSnoc | src/queue.rs:58-66 | proof step: one more sound adds one more unsignalled entry at the end |
| Queue.QueueOf | src/queue.rs:58-66 | appending sounds one by one to a new queue leaves them pending in order, unsignalled, with nothing sent and the signal invariant kept |
| QueueSpec.KeepAlivePlays | src/queue.rs:276-289 | on values: a keep-alive queue holding one buffer plays the buffer, then silence on every further pull |
| Queue.KeepAliveScenario | src/queue.rs:276-289 | with keep-alive on, the appended samples are played in order, then silence on every further pull |
| QueueSpec.FifoPlays | src/queue.rs:249-267 | on values: two queued buffers are played back to back in queue order, then None |
| Queue.FifoScenario | src/queue.rs:249-267 | two appended buffers are played back to back in append order, then None |
| Stream.DefaultConfig | src/stream.rs:43-52 | the default is 2 channels, 44100 Hz, the default buffer size and I8 |
| Stream.DefaultBuilder | src/stream.rs:37-41 | the default builder has no device and the default configuration |
| Stream.WithDevice | src/stream.rs:71-74 | sets the device and keeps the configuration |
| Stream.WithChannels | src/stream.rs:76-80 | sets the channel count and changes nothing else |
| Stream.WithSampleRate | src/stream.rs:82-85 | sets the sample rate and changes nothing else |
| Stream.WithBufferSize | src/stream.rs:87-90 | sets the buffer size and changes nothing else |
| Stream.WithSampleFormat | src/stream.rs:92-95 | sets the sample format and changes nothing else |
| Stream.SettersCommute | src/stream.rs:71-95 | setters of different fields commute, and a second call of the same setter overrides the first |
| Stream.WithSupportedConfig | src/stream.rs:97-107 | copies channels, rate and format, keeps the device, and sets the buffer size to 512 clamped to the supported range: fixed, within the range, and exactly 512 when that is in range |
| Stream.WithConfig | src/stream.rs:109-117 | keeps the device and the sample format; the configuration then converts back to the given stream configuration |
| Stream.ConfigRoundTrip | src/stream.rs:109-117 | `with_config` overwrites channels, rate and buffer size and keeps the format; converting back gives the same stream configuration |
| Stream.ToStreamConfig | src/stream.rs:179-187 | the stream configuration asked of the device: channels, rate and buffer size, without the format; `ConfigRoundTrip` shows `with_config` inverts it |
| Stream.ClampSupportedBufferSize | src/stream.rs:161-166 | always Fixed and within the range; the preferred size when it is already in range, or when the range is unknown |
| Stream.ClampIsNearest | src/stream.rs:161-166 | the clamped size is the supported size nearest the preferred one |
| Stream.ConfigRange.WithMaxSampleRate | src/stream.rs:419-421 | the family's configuration at its maximum rate |
| Stream.ConfigRange.WithSampleRate | src/stream.rs:422-425 | the family's configuration at a rate within its range |
| Stream.Candidates | src/stream.rs:418-427 | the configurations tried for one family; its shape is stated by `CandidatesShape` |
| Stream.CandidatesShape | src/stream.rs:418-427 | 2 or 3 candidates per family: the maximum rate first and the minimum rate last; 44100 in between exactly when strictly inside the range; all candidates in the family's format |
| Stream.CandidateList | src/stream.rs:412-428 | the candidates of every family in the host's order; stated by `CandidateListAppend` and `SupportedOutputConfigs` |
| Stream.CandidateListAppend | src/stream.rs:418-427 | the candidates keep the families' order |
| Stream.FallbackConfigs | src/stream.rs:412-428 | the flattened candidates, or SupportedStreamConfigsError when the families cannot be listed; the loop of `SupportedOutputConfigs` computes it |
| Stream.SupportedOutputConfigs | src/stream.rs:412-428 | the loop builds exactly the flattened candidate list, or returns the listing error |
| Stream.SilenceOf | src/stream.rs:298-406 | every listed format has a silence value, and exactly the unlisted formats have none |
| Stream.SilenceIsCentre | src/stream.rs:298-406 | silence is `MAX / 2` (rounded down) for unsigned formats and 0 for signed and float formats; every buildable format has one |
| Stream.InitStream | src/stream.rs:290-408 | an unsupported format fails with StreamConfigNotSupported before the device is asked; otherwise the host builds with the configuration minus its format |
| Stream.Open | src/stream.rs:280-288 | succeeds exactly when building and starting both succeed, with a mixer of the configuration's channels and rate; a build failure maps to BuildStreamError and a start failure to PlayStreamError |
| Stream.OpenStream | src/stream.rs:119-122 | panics exactly when the builder has no device; otherwise opens on that device |
| Stream.FromDevice | src/stream.rs:55-62 | a builder with the device and its default configuration, or DefaultStreamConfigError |
| Stream.FromDefaultDevice | src/stream.rs:64-69 | NoDevice without a default device, otherwise `from_device` for it |
| Stream.CandidateBuilder | src/stream.rs:133 | the corrected fallback builder: the configuration the code builds, on the builder's own device |
| Stream.FirstCandidate | src/stream.rs:132-136 | the fallback loop as a value: the stream of the first candidate that opens on the builder's device; stated by `FirstCandidateIsFirst` |
| Stream.FirstCandidateIsFirst | src/stream.rs:132-136 | the search finds a stream exactly when some candidate opens, and then it is the first such candidate's |
| Stream.TryOpenStreamResult | src/stream.rs:129-139 | panics exactly without a device; returns the first attempt when it succeeds; returns the listing error when the configurations cannot be listed |
| Stream.TryOpenStreamAllFail | src/stream.rs:137 | when every candidate fails, the first attempt's error is returned |
| Stream.TryOpenStreamFirstSuccess | src/stream.rs:132-135 | a fallback success is the first candidate that opens |
| Stream.TryOpenStreamSomeOpens | src/stream.rs:132-135 | when the first attempt fails and some fallback configuration opens on the device, the result is a stream |
| Stream.TryOpenStream | src/stream.rs:129-139 | the loop with early return computes `TryOpenStreamResult` |
| Stream.TryOpenStreamAsWritten | src/stream.rs:129-139 | `try_open_stream` as written, fallback builders without a device; stated by `AsWrittenFallbackPanics` |
| Stream.AsWrittenCandidateBuilder | src/stream.rs:133 | the fallback builder as written, made from `Self::default()`: it has no device |
| Stream.AsWrittenBuilders | src/stream.rs:133 | the fallback builders as written: one deviceless builder per candidate |
| Stream.FirstOpened | src/stream.rs:132-136 | the fallback loop as written: `open_stream` on each builder in turn, stopping at the first that opens or panics; stated by `AsWrittenFallbackPanics` |
| Stream.AsWrittenFallbackPanics | src/stream.rs:133 | as written, a failed first attempt on a device that lists any configuration panics, where the corrected search returns |
| Stream.FloatOnlyHostShowsPanic | src/stream.rs:133 | a concrete host on which the code as written panics and the corrected search opens a stream |
| Stream.DeviceStream | src/stream.rs:155 | the `find_map` closure: the stream a device yields through `from_device` and the corrected `try_open_stream`, if any; stated by `FirstDeviceIsFirst` |
| Stream.FirstDevice | src/stream.rs:154-156 | the device loop as a value: the stream of the first listed device whose default configuration reads and whose `try_open_stream` succeeds; stated by `FirstDeviceIsFirst` |
| Stream.FirstDeviceIsFirst | src/stream.rs:154-156 | the device search finds a stream exactly when some device yields one, and then it is the first such device's |
| Stream.DefaultAttempt | src/stream.rs:147-148 | the first attempt: NoDevice without a default device, DefaultStreamConfigError when its configuration cannot be read, and otherwise exactly the result of opening the default device in its default configuration |
| Stream.TryDefaultStreamResult | src/stream.rs:146-158 | the first attempt's stream when it opens; any error returned is the first attempt's, including when devices cannot be listed |
| Stream.TryDefaultStreamAllFail | src/stream.rs:156 | when every device fails, the first attempt's error is returned |
| Stream.TryDefaultStreamFirstSuccess | src/stream.rs:155 | a fallback success is the first listed device that yields a stream |
| Stream.TryDefaultStreamSomeYields | src/stream.rs:154-156 | when the first attempt fails and some listed device yields a stream, the result is a stream |
| Stream.TryDefaultStream | src/stream.rs:146-158 | the loop over devices with early return computes `TryDefaultStreamResult` |
| Stream.FirstDeviceAsWritten | src/stream.rs:154-156 | the device loop as written: a panic in a device's `try_open_stream` ends the search; stated by `DefaultStreamAsWrittenPanics` |
| Stream.TryDefaultStreamAsWritten | src/stream.rs:146-158 | `try_default_stream` as written, on top of `try_open_stream` as written |
| Stream.DefaultStreamAsWrittenPanics | src/stream.rs:155 | as written, a failed default attempt followed by a first listed device that fails to open in its default configuration and lists any configuration panics |
| Stream.MisreportingHostShowsPanic | src/stream.rs:155 | a concrete host on which `try_default_stream` as written panics and the corrected search opens the device's float configuration |
| Stream.Fill | src/stream.rs:298-405 | a fill of `n` slots has exactly `n` values |
| Stream.FillAt | src/stream.rs:302-304 | slot `i` holds the converted `i`-th sample, or the format's silence once the samples run out |
| Stream.DropRest | src/stream.rs:302-304 | proof step: filling one slot and then `n - 1` leaves the mixer where filling `n` does |
| Stream.FillSplit | src/stream.rs:298-405 | cutting the mixer output into device buffers does not change the stream of values |
| Stream.FillBuffer | src/stream.rs:298-405 | the callback overwrites every slot in order, as `Fill` says, and returns the samples it did not take |

## Left out

- The Mutex, the AtomicBool and its memory orderings, and the mpsc/crossbeam channels are not modelled. Each input method is one atomic step. A channel is a numbered id, and sending on it appends the id to a ghost log. A send to a dropped receiver is ignored by the code, so the log records every send.
- `src/source.rs` and `src/buffer.rs` are not part of this model. The hints of the three built-in source kinds follow rodio's own kinds:
  - a buffer has no span length and an exact size hint;
  - a counted silence's span is what it has left, and its size hint is 0;
  - an ended source reports 1 channel at 48000 Hz.
- A general source (`Opaque` in module `Sources`) is finite: an endless source, such as a silence without a count or a generator, is not modelled. It keeps one channel count and sample rate for all its samples, so span changes of format inside one sound are not modelled. Its hints after each sample are given as data. A size-hint lower bound above what it holds breaks the iterator's contract and is read as the number of samples left.
- QueueSpec.SpanEndsWithSource: a sound boundary is a span boundary only while the sound plays. At the boundary itself the queue does not look ahead and reports 512 rather than the next sound's length (QueueSpec.SpanAtBoundary, QueueSpec.SpanAcrossBoundary); the ignored `basic` test (src/queue.rs:248) flags the same transition.
- Queue.QueueOutput.TrySeek: the current source's own seek is a parameter that returns the source it leaves and its result. Positions are whole nanoseconds.
- Samples are f32 bit patterns with no arithmetic; silence is +0.0. The tests' values (10.0, -10.0, 5.0) become arbitrary sample sequences. Queue.FifoScenario checks only the samples of the `basic` test: that test is marked ignored because channels and rate do not follow the transition at once.
- The ignored test `no_delay_when_added` (src/queue.rs:292) states behaviour the code does not have. It is not specified.
- The host's calls (default device, device list, default and supported configurations, building and starting a stream) are fields of `Host` that return results. Error payloads are numbers.
- `cmp_default_heuristics` (src/stream.rs:416) is not modelled. The host returns the families already in preference order.
- `Sample::from_sample` is an uninterpreted parameter of the fill. So is the F32 path's direct copy.
- The mixer is the sequence of samples it still yields. The stream is an id, and `OutputStream::mixer` is the pair of mixer channels and rate kept in `OutputStream`. The decoder, `Sink` and `play` (src/stream.rs:169-177) are not part of this model.
- `Display`, `Error::source` and the `From` conversions of the error types (src/stream.rs:189-277) are not modelled; the eprintln error callback is I/O.
- Stream.WithChannels: the code's `assert!(channel_count > 0)` is a precondition.
- Stream.ConfigRange.WithSampleRate: the host library asserts that the rate lies in the family's range, which is a precondition here. The family is a subset type with minimum rate at most maximum rate, and so is a buffer-size range. The host guarantees both, and `Ord::clamp` would panic otherwise.
- `try_default_stream` searches every listed output device, the default one included, as the code does, not only the other devices.
- Stream.TryDefaultStream uses the corrected `try_open_stream`; the code as written is Stream.TryDefaultStreamAsWritten, see Findings.

## Findings

| source | as written | input that shows it | evidently intended | confidence | as-written member | corrected member |
|---|---|---|---|---|---|---|
| src/stream.rs:133 | Each fallback configuration goes into `Self::default()`, a builder with no device. `open_stream` then hits `expect("output device specified")`, so the first fallback attempt panics and no fallback configuration is ever tried. `try_default_stream` (src/stream.rs:155) calls `try_open_stream` and inherits the panic. | A device whose only configuration is F32 stereo at 48000 Hz, opened with a builder in the default configuration (I8 at 44100 Hz). The first attempt fails and the code panics, where the device's own configuration would open. | Open each fallback configuration on the builder's own device. | not executed | Stream.TryOpenStreamAsWritten, Stream.AsWrittenFallbackPanics, Stream.FloatOnlyHostShowsPanic | Stream.TryOpenStream, Stream.TryOpenStreamResult, Stream.TryOpenStreamFirstSuccess |
| src/stream.rs:155 | `try_default_stream` calls the `try_open_stream` above on each listed device, so the panic ends the whole device search. | A host whose default device reports I8 at 44100 Hz as its default configuration but opens only F32 stereo at 48000 Hz. The first attempt fails, and the device search panics on the same device. | Search the devices with a `try_open_stream` that opens fallbacks on the device. | not executed | Stream.TryDefaultStreamAsWritten, Stream.DefaultStreamAsWrittenPanics, Stream.MisreportingHostShowsPanic | Stream.TryDefaultStream, Stream.TryDefaultStreamResult, Stream.TryDefaultStreamFirstSuccess |
