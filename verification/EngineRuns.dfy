/** What every run of calls on one provider session keeps: queue accounting, event
    numbering, and, for every utterance, which frames became audio and where it ended. */
module EngineRuns {
  import opened Wire
  import opened EngineModel

  // ---- The session invariant ----

  ghost predicate EntryOk(format: PcmFormat, bytes: nat, streams: map<Uuid, Uuid>, q: Queued) {
    && q.frame.utterance in streams
    && q.frame.stream == streams[q.frame.utterance]
    && q.frame.format == format
    && |q.frame.pcm| == bytes
    && bytes % 2 == 0
  }

  /** Queued input: its milliseconds are counted, within the limit, and each entry is
      a frame of an open utterance. */
  ghost predicate InputOk(format: PcmFormat, bytes: nat, streams: map<Uuid, Uuid>, q: seq<Queued>, ms: int) {
    && ms == Ms(q) <= INPUT_LIMIT_MS
    && forall x <- q :: x.QueuedInput? && EntryOk(format, bytes, streams, x)
  }

  ghost predicate OutputOk(format: PcmFormat, bytes: nat, streams: map<Uuid, Uuid>, q: seq<Queued>, ms: int) {
    && ms == Ms(q) <= OUTPUT_LIMIT_MS
    && forall x <- q ::
         x.QueuedOutput? && EntryOk(format, bytes, streams, x) && x.pcm == ReverseSamples(x.frame.pcm)
  }

  /** Open and ended utterances are apart, within capacity, and on one stream. */
  ghost predicate IdsOk(streamId: Option<Uuid>, streams: map<Uuid, Uuid>, ended: set<Uuid>, terminal: set<Uuid>) {
    && streams.Keys !! terminal
    && ended <= streams.Keys
    && |terminal| <= MAX_TERMINAL_UTTERANCES
    && |streams| <= MAX_ACTIVE_UTTERANCES
    && forall u <- streams :: streamId == Some(streams[u])
  }

  ghost predicate NumbersOk(streams: map<Uuid, Uuid>, nextAudio: map<Uuid, nat>, lastAudio: map<Uuid, nat>) {
    && nextAudio.Keys == lastAudio.Keys <= streams.Keys
    && forall u <- lastAudio :: nextAudio[u] == lastAudio[u] + 1
  }

  ghost predicate Inv(s: Session) {
    && Openable(s.request)
    && InputOk(s.request.inputFormat, s.request.inputFormat.FrameBytes(), s.streams, s.input, s.inputMs)
    && OutputOk(s.request.inputFormat, s.request.inputFormat.FrameBytes(), s.streams, s.output, s.outputMs)
    && IdsOk(s.streamId, s.streams, s.ended, s.terminal)
    && NumbersOk(s.streams, s.nextAudio, s.lastAudio)
  }

  lemma FrameBytesEven(f: PcmFormat)
    requires f.Supported()
    ensures f.FrameBytes() % 2 == 0
  {
    var (rate, d) := (f.sampleRateHz * f.channels, f.frameDurationMs);
    assert rate in {16_000, 24_000, 32_000, 48_000, 96_000} by {
      assert f.channels == 1 || f.channels == 2;
    }
    assert f.FrameBytes() == rate * 2 * d / 1000;
    EvenBytes(rate, d);
  }

  lemma EvenBytes(rate: nat, d: nat)
    requires rate in {16_000, 24_000, 32_000, 48_000, 96_000}
    ensures (rate * 2 * d / 1000) % 2 == 0
  {
    if rate == 16_000 {
      EvenThousandth(rate * 2 * d, 16 * d);
    } else if rate == 24_000 {
      EvenThousandth(rate * 2 * d, 24 * d);
    } else if rate == 32_000 {
      EvenThousandth(rate * 2 * d, 32 * d);
    } else if rate == 48_000 {
      EvenThousandth(rate * 2 * d, 48 * d);
    } else {
      EvenThousandth(rate * 2 * d, 96 * d);
    }
  }

  lemma EvenThousandth(total: nat, half: nat)
    requires total == 2000 * half
    ensures (total / 1000) % 2 == 0
  {
    assert total / 1000 == 2 * half;
  }

  lemma {:induction false} MsWithout(q: seq<Queued>, u: Uuid)
    ensures Ms(Without(q, u)) == Ms(q) - MsOf(q, u)
  {
    if q != [] {
      MsWithout(q[1..], u);
      assert ([q[0]] + Without(q[1..], u))[1..] == Without(q[1..], u);
    }
  }

  lemma {:induction false} MsAppend(q: seq<Queued>, x: Queued)
    ensures Ms(q + [x]) == Ms(q) + x.frame.format.frameDurationMs
  {
    if q == [] {
      assert q + [x] == [x];
    } else {
      MsAppend(q[1..], x);
      assert (q + [x])[1..] == q[1..] + [x];
    }
  }

  lemma {:induction false} FramesInWithout(q: seq<Queued>, x: Uuid, u: Uuid)
    ensures FramesIn(Without(q, x), u) == if u == x then [] else FramesIn(q, u)
  {
    if q != [] {
      FramesInWithout(q[1..], x, u);
      assert ([q[0]] + Without(q[1..], x))[1..] == Without(q[1..], x);
    }
  }

  lemma {:induction false} FramesInAppend(q: seq<Queued>, x: Queued, u: Uuid)
    ensures FramesIn(q + [x], u) == if x.frame.utterance == u then FramesIn(q, u) + [x.frame] else FramesIn(q, u)
  {
    if q == [] {
      assert q + [x] == [x];
    } else {
      FramesInAppend(q[1..], x, u);
      assert (q + [x])[1..] == q[1..] + [x];
    }
  }

  lemma InputWithout(format: PcmFormat, bytes: nat, streams: map<Uuid, Uuid>, q: seq<Queued>, ms: int, u: Uuid)
    requires InputOk(format, bytes, streams, q, ms)
    ensures InputOk(format, bytes, streams - {u}, Without(q, u), ms - MsOf(q, u))
    ensures InputOk(format, bytes, streams, Without(q, u), ms - MsOf(q, u))
  {
    MsWithout(q, u);
    hide Without, Ms, MsOf;
  }

  lemma OutputWithout(format: PcmFormat, bytes: nat, streams: map<Uuid, Uuid>, q: seq<Queued>, ms: int, u: Uuid)
    requires OutputOk(format, bytes, streams, q, ms)
    ensures OutputOk(format, bytes, streams - {u}, Without(q, u), ms - MsOf(q, u))
    ensures OutputOk(format, bytes, streams, Without(q, u), ms - MsOf(q, u))
  {
    MsWithout(q, u);
    hide Without, Ms, MsOf, ReverseSamples;
  }

  lemma IdsForget(streamId: Option<Uuid>, streams: map<Uuid, Uuid>, ended: set<Uuid>, terminal: set<Uuid>, u: Uuid)
    requires IdsOk(streamId, streams, ended, terminal)
    ensures IdsOk(streamId, streams - {u}, ended - {u}, terminal)
    ensures |terminal| < MAX_TERMINAL_UTTERANCES ==> IdsOk(streamId, streams - {u}, ended - {u}, terminal + {u})
  {
    assert (streams - {u}).Keys == streams.Keys - {u};
    assert |streams.Keys - {u}| <= |streams.Keys|;
    assert |terminal + {u}| <= |terminal| + 1;
  }

  lemma NumbersForget(streams: map<Uuid, Uuid>, nextAudio: map<Uuid, nat>, lastAudio: map<Uuid, nat>, u: Uuid)
    requires NumbersOk(streams, nextAudio, lastAudio)
    ensures NumbersOk(streams - {u}, nextAudio - {u}, lastAudio - {u})
  {
    assert (nextAudio - {u}).Keys == nextAudio.Keys - {u};
    assert (lastAudio - {u}).Keys == lastAudio.Keys - {u};
  }

  lemma IdsAdmit(s: Session, f: Frame)
    requires IdsOk(s.streamId, s.streams, s.ended, s.terminal) && f.utterance !in s.terminal
    requires s.streamId.Some? ==> f.stream == s.streamId.value
    requires f.utterance in s.streams || |s.streams| < MAX_ACTIVE_UTTERANCES
    ensures IdsOk(Some(f.stream), s.streams[f.utterance := f.stream], s.ended, s.terminal)
    ensures f.utterance in s.streams ==> s.streams[f.utterance] == f.stream
  {
    var streams := s.streams[f.utterance := f.stream];
    assert streams.Keys == s.streams.Keys + {f.utterance};
    assert f.utterance in s.streams ==> streams.Keys == s.streams.Keys;
  }

  /** The invariant, part by part. */
  lemma InvOfParts(s: Session, format: PcmFormat, bytes: nat)
    requires Openable(s.request) && format == s.request.inputFormat && bytes == format.FrameBytes()
    requires InputOk(format, bytes, s.streams, s.input, s.inputMs)
    requires OutputOk(format, bytes, s.streams, s.output, s.outputMs)
    requires IdsOk(s.streamId, s.streams, s.ended, s.terminal)
    requires NumbersOk(s.streams, s.nextAudio, s.lastAudio)
    ensures Inv(s)
  {}

  lemma PartsOfInv(s: Session)
    requires Inv(s)
    ensures Openable(s.request)
    ensures InputOk(s.request.inputFormat, s.request.inputFormat.FrameBytes(), s.streams, s.input, s.inputMs)
    ensures OutputOk(s.request.inputFormat, s.request.inputFormat.FrameBytes(), s.streams, s.output, s.outputMs)
    ensures IdsOk(s.streamId, s.streams, s.ended, s.terminal)
    ensures NumbersOk(s.streams, s.nextAudio, s.lastAudio)
  {}

  lemma ForgetInput(s: Session, u: Uuid)
    requires InputOk(s.request.inputFormat, s.request.inputFormat.FrameBytes(), s.streams, s.input, s.inputMs)
    ensures var s' := Forget(s, u);
            InputOk(s.request.inputFormat, s.request.inputFormat.FrameBytes(), s'.streams, s'.input, s'.inputMs)
    ensures var s' := PurgeQueues(s, u);
            InputOk(s.request.inputFormat, s.request.inputFormat.FrameBytes(), s'.streams, s'.input, s'.inputMs)
  {
    hide InputOk, Without, MsOf, PcmFormat.FrameBytes;
    InputWithout(s.request.inputFormat, s.request.inputFormat.FrameBytes(), s.streams, s.input, s.inputMs, u);
  }

  lemma ForgetOutput(s: Session, u: Uuid)
    requires OutputOk(s.request.inputFormat, s.request.inputFormat.FrameBytes(), s.streams, s.output, s.outputMs)
    ensures var s' := Forget(s, u);
            OutputOk(s.request.inputFormat, s.request.inputFormat.FrameBytes(), s'.streams, s'.output, s'.outputMs)
    ensures var s' := PurgeQueues(s, u);
            OutputOk(s.request.inputFormat, s.request.inputFormat.FrameBytes(), s'.streams, s'.output, s'.outputMs)
  {
    hide OutputOk, Without, MsOf, PcmFormat.FrameBytes;
    OutputWithout(s.request.inputFormat, s.request.inputFormat.FrameBytes(), s.streams, s.output, s.outputMs, u);
  }

  lemma ForgetBooks(s: Session, u: Uuid)
    requires IdsOk(s.streamId, s.streams, s.ended, s.terminal) && NumbersOk(s.streams, s.nextAudio, s.lastAudio)
    ensures var s' := Forget(s, u);
            && IdsOk(s'.streamId, s'.streams, s'.ended, s'.terminal)
            && NumbersOk(s'.streams, s'.nextAudio, s'.lastAudio)
            && s'.request == s.request
    ensures var s' := PurgeQueues(s, u);
            && IdsOk(s'.streamId, s'.streams, s'.ended, s'.terminal)
            && NumbersOk(s'.streams, s'.nextAudio, s'.lastAudio)
            && s'.request == s.request
  {
    hide IdsOk, NumbersOk, Without, MsOf;
    IdsForget(s.streamId, s.streams, s.ended, s.terminal, u);
    NumbersForget(s.streams, s.nextAudio, s.lastAudio, u);
  }

  lemma ForgetKeepsInv(s: Session, u: Uuid)
    requires Inv(s)
    ensures Inv(Forget(s, u)) && Inv(PurgeQueues(s, u))
  {
    hide *;
    PartsOfInv(s);
    ForgetInput(s, u);
    ForgetOutput(s, u);
    ForgetBooks(s, u);
    InvOfParts(Forget(s, u), s.request.inputFormat, s.request.inputFormat.FrameBytes());
    InvOfParts(PurgeQueues(s, u), s.request.inputFormat, s.request.inputFormat.FrameBytes());
  }

  lemma TerminateKeepsInv(s: Session, stream: Uuid, u: Uuid, outcome: Outcome)
    requires Inv(s)
    ensures Inv(Terminate(s, stream, u, outcome).session)
    ensures u in s.streams ==> Terminate(s, stream, u, outcome).answer != Raised(UtteranceTerminal)
  {
    ForgetKeepsInv(s, u);
    IdsForget(s.streamId, s.streams, s.ended, s.terminal, u);
    hide InputOk, OutputOk, NumbersOk;
  }

  lemma FailKeepsInv(s: Session, f: Frame, code: ErrorCode)
    requires Inv(s)
    ensures Inv(FailUtterance(s, f, code).session)
  {
    hide InputOk, OutputOk, NumbersOk, IdsOk, Openable, PcmFormat.FrameBytes, Terminate;
    TerminateKeepsInv(s.(eventSequence := s.eventSequence + 1), f.stream, f.utterance, Dropped);
  }

  lemma AdmittedKeepsInv(s: Session, f: Frame)
    requires Inv(s) && FrameError(s, f).None?
    requires f.utterance in s.streams || |s.streams| < MAX_ACTIVE_UTTERANCES
    ensures Inv(Admitted(s, f))
  {
    IdsAdmit(s, f);
    hide IdsOk;
  }

  // ---- Runs ----

  datatype Op =
    | Enqueue(frame: Frame, now: nat)
    | Process(now: nat)
    | Drain(now: nat)
    | Cancel(direction: Direction, utterance: Uuid)
    | Close
    | SetDebug(enabled: bool)
    | AskHealth

  ghost function Apply(inj: Injection, s: Session, op: Op): Reply
    requires Inv(s)
  {
    match op
    case Enqueue(f, now) => EnqueueFrame(s, f, now)
    case Process(now) => ProcessNext(inj, s, now)
    case Drain(now) => DrainOutput(s, now)
    case Cancel(d, u) => CancelUtterance(s, d, u)
    case Close => CloseSession(s)
    case SetDebug(enabled) => UpdateDebugText(s, enabled)
    case AskHealth => ReportHealth(s)
  }

  lemma InputAppend(format: PcmFormat, bytes: nat, streams: map<Uuid, Uuid>, q: seq<Queued>, ms: int, x: Queued)
    requires InputOk(format, bytes, streams, q, ms) && ms + x.frame.format.frameDurationMs <= INPUT_LIMIT_MS
    requires x.QueuedInput? && EntryOk(format, bytes, streams, x)
    ensures InputOk(format, bytes, streams, q + [x], ms + x.frame.format.frameDurationMs)
  {
    MsAppend(q, x);
    hide Ms;
  }

  /** A frame that is queued keeps the invariant. */
  lemma QueuedKeepsInv(s: Session, f: Frame, now: nat)
    requires Inv(s) && FrameError(s, f).None? && s.inputMs + f.format.frameDurationMs <= INPUT_LIMIT_MS
    requires f.utterance in s.streams || |s.streams| < MAX_ACTIVE_UTTERANCES
    ensures Inv(Admitted(s, f).(input := s.input + [QueuedInput(f, now)],
            inputMs := s.inputMs + f.format.frameDurationMs,
                                ended := if f.endOfUtterance then s.ended + {f.utterance} else s.ended))
  {
    AdmittedKeepsInv(s, f);
    FrameBytesEven(f.format);
    hide OutputOk, NumbersOk, PcmFormat.Supported, PcmFormat.FrameBytes, Ms;
    var (s1, q) := (Admitted(s, f), QueuedInput(f, now));
    InputAppend(s1.request.inputFormat, |f.pcm|, s1.streams, s1.input, s1.inputMs, q);
  }

  lemma EnqueueKeepsInv(s: Session, f: Frame, now: nat)
    requires Inv(s)
    ensures Inv(EnqueueFrame(s, f, now).session)
  {
    hide Inv, Terminate, FailUtterance, FrameError, Admitted, Expired;
    if FrameError(s, f).None? && (f.utterance in s.streams || |s.streams| < MAX_ACTIVE_UTTERANCES) {
      AdmittedKeepsInv(s, f);
      TerminateKeepsInv(Admitted(s, f), f.stream, f.utterance, Dropped);
      FailKeepsInv(Admitted(s, f), f, QueueOverflow);
      if s.inputMs + f.format.frameDurationMs <= INPUT_LIMIT_MS {
        QueuedKeepsInv(s, f, now);
      }
    }
  }

  lemma OutputAppend(format: PcmFormat, bytes: nat, streams: map<Uuid, Uuid>, q: seq<Queued>, ms: int, x: Queued)
    requires OutputOk(format, bytes, streams, q, ms) && ms + x.frame.format.frameDurationMs <= OUTPUT_LIMIT_MS
    requires x.QueuedOutput? && EntryOk(format, bytes, streams, x) && x.pcm == ReverseSamples(x.frame.pcm)
    ensures OutputOk(format, bytes, streams, q + [x], ms + x.frame.format.frameDurationMs)
  {
    MsAppend(q, x);
    hide Ms, ReverseSamples;
  }

  /** Taking the head of the input keeps the invariant, and the head was an entry. */
  lemma PopInputKeepsInv(s: Session)
    requires Inv(s) && s.input != []
    ensures Inv(PopInput(s))
    ensures s.input[0].QueuedInput?
    ensures EntryOk(s.request.inputFormat, s.request.inputFormat.FrameBytes(), s.streams, s.input[0])
  {
    hide OutputOk, IdsOk, NumbersOk, Openable, PcmFormat.FrameBytes;
    assert s.input[0] in s.input;
  }

  lemma ProcessKeepsInv(inj: Injection, s: Session, now: nat)
    requires Inv(s)
    ensures Inv(ProcessNext(inj, s, now).session)
  {
    hide InputOk, IdsOk, NumbersOk, Terminate, FailUtterance, Openable, PcmFormat.FrameBytes, PopInput, Expired;
    if s.input != [] {
      var f := s.input[0].frame;
      PopInputKeepsInv(s);
      var s1 := PopInput(s);
      var s2 := s1.(processed := s.processed + 1);
      TerminateKeepsInv(s1, f.stream, f.utterance, Dropped);
      FailKeepsInv(s2, f, ProviderUnavailable);
      FailKeepsInv(s2, f, QueueOverflow);
      if s.outputMs + f.format.frameDurationMs <= OUTPUT_LIMIT_MS {
        var q := QueuedOutput(f, ReverseSamples(f.pcm));
        OutputAppend(s.request.inputFormat, |f.pcm|, s.streams, s.output, s.outputMs, q);
      }
      PopInputIs(s);
      hide OutputOk, EntryOk;
    }
  }

  lemma PopInputIs(s: Session)
    requires s.input != []
    ensures var s1 := PopInput(s);
            s1 == s.(input := s1.input, inputMs := s1.inputMs)
  {}

  lemma PopOutputKeepsInv(s: Session)
    requires Inv(s) && s.output != []
    ensures Inv(PopOutput(s))
    ensures s.output[0].QueuedOutput?
    ensures EntryOk(s.request.inputFormat, s.request.inputFormat.FrameBytes(), s.streams, s.output[0])
  {
    hide InputOk, IdsOk, NumbersOk, Openable, PcmFormat.FrameBytes, ReverseSamples;
    assert s.output[0] in s.output;
  }

  lemma AudioKeepsInv(s: Session, u: Uuid)
    requires Inv(s) && u in s.streams
    ensures Inv(AudioEmitted(s, u))
  {
    hide InputOk, OutputOk, IdsOk, Openable, PcmFormat.FrameBytes;
  }

  lemma DrainOneKeepsInv(s: Session, now: nat)
    requires Inv(s) && s.output != []
    ensures Inv(DrainOne(PopOutput(s), s.output[0], now).session)
  {
    PopOutputKeepsInv(s);
    hide Inv, Terminate, PcmFormat.FrameBytes, Expired;
    var s1, f := PopOutput(s), s.output[0].frame;
    AudioKeepsInv(s1, f.utterance);
    TerminateKeepsInv(s1, f.stream, f.utterance, Dropped);
    TerminateKeepsInv(AudioEmitted(s1, f.utterance), f.stream, f.utterance, Completed);
  }

  lemma DrainFromKeepsInv(s: Session, now: nat)
    requires Inv(s)
    ensures Inv(DrainFrom(s, now).session)
    decreases |s.output|
  {
    if s.output != [] {
      DrainOneKeepsInv(s, now);
      var r := DrainOne(PopOutput(s), s.output[0], now);
      if r.answer.Events? {
        DrainFromKeepsInv(r.session, now);
      }
      hide InputOk, OutputOk, IdsOk, NumbersOk, DrainOne;
    }
  }

  lemma CancelKeepsInv(s: Session, d: Direction, u: Uuid)
    requires Inv(s)
    ensures Inv(CancelUtterance(s, d, u).session)
  {
    hide Inv, Terminate, PurgeQueues;
    ForgetKeepsInv(s, u);
    if u in s.streams {
      TerminateKeepsInv(PurgeQueues(s, u), s.streams[u], u, Cancelled);
    }
  }

  lemma CloseKeepsInv(s: Session)
    requires Inv(s)
    ensures Inv(CloseSession(s).session)
  {
    hide PcmFormat.FrameBytes, Openable;
  }

  lemma DebugKeepsInv(s: Session, enabled: bool)
    requires Inv(s)
    ensures Inv(UpdateDebugText(s, enabled).session) && Inv(ReportHealth(s).session)
  {
    hide InputOk, OutputOk, IdsOk, NumbersOk, Openable, PcmFormat.FrameBytes;
  }

  /** Every call keeps the session invariant, whether it returns or raises. */
  lemma ApplyKeepsInv(inj: Injection, s: Session, op: Op)
    requires Inv(s)
    ensures Inv(Apply(inj, s, op).session)
  {
    hide InputOk, OutputOk, IdsOk, NumbersOk, Openable, PcmFormat.FrameBytes, EnqueueFrame, ProcessNext, DrainFrom,
         CancelUtterance, CloseSession,
         UpdateDebugText, ReportHealth;
    match op
    case Enqueue(f, now) => EnqueueKeepsInv(s, f, now);
    case Process(now) => ProcessKeepsInv(inj, s, now);
    case Drain(now) => DrainFromKeepsInv(s, now);
    case Cancel(d, u) => CancelKeepsInv(s, d, u);
    case Close => CloseKeepsInv(s);
    case SetDebug(enabled) => DebugKeepsInv(s, enabled);
    case AskHealth => DebugKeepsInv(s, true);
  }
}
