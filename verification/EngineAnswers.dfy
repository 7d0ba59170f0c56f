/** What each call on a provider session answers, in figures: which frames are queued, dropped
    or refused, what processing does with the oldest one, and what draining plays. */
module EngineAnswers {
  import opened Wire
  import opened Figures
  import opened EngineModel
  import opened EngineRuns
  import T = EngineTraces

  /** The header of the `k`-th event a call returns. */
  function Stamp(s: Session, k: nat): Header {
    Header(s.request.session, s.request.direction, s.eventSequence + k)
  }

  /** The utterance is over and gone from both queues; nothing else was touched. */
  ghost predicate Gone(s: Session, s': Session, u: Uuid) {
    && u in s'.terminal && u !in s'.streams && s'.terminal == s.terminal + {u}
    && (forall x :: x != u ==> (x in s'.streams <==> x in s.streams) && (x in s'.ended <==> x in s.ended))
    && (forall x :: FramesIn(s'.input, x) == if x == u then [] else FramesIn(s.input, x))
    && (forall x :: FramesIn(s'.output, x) == if x == u then [] else FramesIn(s.output, x))
  }

  lemma TerminateIs(s: Session, stream: Uuid, u: Uuid, outcome: Outcome)
    requires Terminate(s, stream, u, outcome).answer.Events?
    ensures var r := Terminate(s, stream, u, outcome);
            && r.answer.events == [UtteranceFinal(Stamp(s, 1), stream, u, Lookup(s.lastAudio, u), outcome)]
            && Gone(s, r.session, u) && r.session.eventSequence == s.eventSequence + 1
  {
    hide FramesIn, Without, MsOf;
    var r := Terminate(s, stream, u, outcome);
    forall x
      ensures FramesIn(r.session.input, x) == if x == u then [] else FramesIn(s.input, x)
      ensures FramesIn(r.session.output, x) == if x == u then [] else FramesIn(s.output, x)
    {
      FramesInWithout(s.input, u, x);
      FramesInWithout(s.output, u, x);
    }
  }

  lemma FailIs(s: Session, f: Frame, code: ErrorCode)
    requires FailUtterance(s, f, code).answer.Events?
    ensures var r := FailUtterance(s, f, code);
            && r.answer.events == Failure(s, f, code)
            && Gone(s, r.session, f.utterance)
  {
    hide Terminate, Gone;
    TerminateIs(s.(eventSequence := s.eventSequence + 1), f.stream, f.utterance, Dropped);
    GoneApart(s, s.eventSequence + 1, FailUtterance(s, f, code).session, f.utterance);
  }

  lemma GoneApart(s: Session, n: nat, s': Session, u: Uuid)
    ensures Gone(s.(eventSequence := n), s', u) <==> Gone(s, s', u)
  {}

  /** An error about the frame's utterance, and its end. */
  function Failure(s: Session, f: Frame, code: ErrorCode): seq<Event> {
    [Error(Stamp(s, 1), Some(f.stream), Some(f.utterance), code),
     UtteranceFinal(Stamp(s, 2), f.stream, f.utterance, Lookup(s.lastAudio, f.utterance), Dropped)]
  }

  // ---- A frame comes ----

  predicate TooOld(s: Session, f: Frame, now: nat) {
    now - f.captureNs > OldestNs(s.request.mode)
  }

  /** A frame that is not refused is dropped with its utterance exactly when it is too old,
      overflows exactly when fresh with more than 800 ms then waiting, and is otherwise queued. */
  lemma FrameAnswered(s: Session, f: Frame, now: nat)
    requires Inv(s) && EnqueueFrame(s, f, now).answer.Events?
    ensures var (s', es) := (EnqueueFrame(s, f, now).session, EnqueueFrame(s, f, now).answer.events);
            var (u, waiting) := (f.utterance, Ms(s.input) + f.format.frameDurationMs);
            if TooOld(s, f, now)
            then && es == [UtteranceFinal(Stamp(s, 1), f.stream, u, Lookup(s.lastAudio, u), Dropped)]
                 && Gone(s, s', u)
            else if waiting > 800
            then es == Failure(s, f, QueueOverflow) && Gone(s, s', u)
            else
              && es == [] && s'.input == s.input + [QueuedInput(f, now)] && s'.output == s.output
              && s'.terminal == s.terminal && (forall x :: x in s'.streams <==> x == u || x in s.streams)
              && (forall x :: x in s'.ended <==> x in s.ended || (x == u && f.endOfUtterance))
  {
    hide Terminate, FailUtterance, FrameError, Gone;
    T.NotTooOld(s.request.mode, f.captureNs, now);
    WaitingMs(s);
    hide Inv, Expired, OldestNs;
    var s1 := Admitted(s, f);
    if TooOld(s, f, now) {
      TerminateIs(s1, f.stream, f.utterance, Dropped);
      GoneAdmitted(s, f, Terminate(s1, f.stream, f.utterance, Dropped).session);
    } else if s.inputMs + f.format.frameDurationMs > 800 {
      FailIs(s1, f, QueueOverflow);
      GoneAdmitted(s, f, FailUtterance(s1, f, QueueOverflow).session);
    }
  }

  lemma WaitingMs(s: Session)
    requires Inv(s)
    ensures s.inputMs == Ms(s.input) && s.outputMs == Ms(s.output)
  {
    hide Ms, IdsOk, NumbersOk, Openable, PcmFormat.FrameBytes;
  }

  lemma GoneAdmitted(s: Session, f: Frame, s': Session)
    requires Gone(Admitted(s, f), s', f.utterance)
    ensures Gone(s, s', f.utterance)
  {
    hide FramesIn;
  }

  // ---- Every queued frame was fresh when it came ----

  ghost predicate FreshInput(mode: Mode, q: seq<Queued>) {
    forall x <- q :: x.QueuedInput? && x.enqueuedNs - x.frame.captureNs <= OldestNs(mode)
  }

  /** Whatever is left in the input was there, or is a fresh frame that just came. */
  lemma InputFrom(inj: Injection, s: Session, op: Op)
    requires Inv(s) && FreshInput(s.request.mode, s.input)
    ensures FreshInput(s.request.mode, Apply(inj, s, op).session.input)
  {
    T.QueueKinds(s);
    hide Inv, EnqueueFrame, ProcessNext, DrainFrom, CancelUtterance;
    match op
    case Enqueue(f, now) => EnqueueInput(s, f, now);
    case Process(now) => ProcessInput(inj, s, now);
    case Drain(now) => DrainInput(s, now);
    case Cancel(d, u) => CancelInput(s, d, u);
    case _ =>
  }

  lemma TerminateInput(s: Session, stream: Uuid, u: Uuid, outcome: Outcome)
    requires FreshInput(s.request.mode, s.input)
    ensures FreshInput(s.request.mode, Terminate(s, stream, u, outcome).session.input)
  {
    hide Without, MsOf;
  }

  lemma FailInput(s: Session, f: Frame, code: ErrorCode)
    requires FreshInput(s.request.mode, s.input)
    ensures FreshInput(s.request.mode, FailUtterance(s, f, code).session.input)
  {
    hide Terminate;
    TerminateInput(s.(eventSequence := s.eventSequence + 1), f.stream, f.utterance, Dropped);
  }

  lemma EnqueueInput(s: Session, f: Frame, now: nat)
    requires FreshInput(s.request.mode, s.input)
    ensures FreshInput(s.request.mode, EnqueueFrame(s, f, now).session.input)
  {
    hide Terminate, FailUtterance, FrameError;
    T.NotTooOld(s.request.mode, f.captureNs, now);
    hide Expired, OldestNs;
    TerminateInput(Admitted(s, f), f.stream, f.utterance, Dropped);
    FailInput(Admitted(s, f), f, QueueOverflow);
  }

  lemma ProcessInput(inj: Injection, s: Session, now: nat)
    requires FreshInput(s.request.mode, s.input) && forall q <- s.input :: q.QueuedInput? && |q.frame.pcm| % 2 == 0
    ensures FreshInput(s.request.mode, ProcessNext(inj, s, now).session.input)
  {
    hide Terminate, FailUtterance, Expired, ReverseSamples, OldestNs;
    if s.input != [] {
      var (f, s1) := (s.input[0].frame, PopInput(s));
      assert FreshInput(s.request.mode, s1.input);
      TerminateInput(s1, f.stream, f.utterance, Dropped);
      FailInput(s1.(processed := s.processed + 1), f, ProviderUnavailable);
      FailInput(s1.(processed := s.processed + 1), f, QueueOverflow);
    }
  }

  lemma {:induction false} DrainInput(s: Session, now: nat)
    requires FreshInput(s.request.mode, s.input) && forall q <- s.output :: q.QueuedOutput?
    ensures FreshInput(s.request.mode, DrainFrom(s, now).session.input)
    decreases |s.output|
  {
    hide FreshInput;
    if s.output != [] {
      var r := DrainOne(PopOutput(s), s.output[0], now);
      DrainOneInput(PopOutput(s), s.output[0], now);
      T.DrainOneSettles(PopOutput(s), s.output[0], now);
      hide DrainOne;
      if r.answer.Events? {
        DrainInput(r.session, now);
      }
    }
  }

  lemma DrainOneInput(s: Session, q: Queued, now: nat)
    requires FreshInput(s.request.mode, s.input) && q.QueuedOutput?
    ensures FreshInput(s.request.mode, DrainOne(s, q, now).session.input)
  {
    hide Terminate, Expired, FreshInput;
    TerminateInput(s, q.frame.stream, q.frame.utterance, Dropped);
    TerminateInput(AudioEmitted(s, q.frame.utterance), q.frame.stream, q.frame.utterance, Completed);
  }

  lemma CancelInput(s: Session, d: Direction, u: Uuid)
    requires FreshInput(s.request.mode, s.input)
    ensures FreshInput(s.request.mode, CancelUtterance(s, d, u).session.input)
  {
    hide Terminate, Without, MsOf;
    if u in s.streams {
      TerminateInput(PurgeQueues(s, u), s.streams[u], u, Cancelled);
    }
  }

  /** Over every run, a frame that waits was not too old when it came. */
  lemma {:induction false} QueuedWhileFresh(inj: Injection, request: OpenRequest, ops: seq<Op>)
    requires Openable(request)
    ensures forall q <- T.Run(inj, request, ops).session.input ::
              q.QueuedInput? && q.enqueuedNs - q.frame.captureNs <= OldestNs(request.mode)
  {
    if ops != [] {
      var before := ops[..|ops| - 1];
      QueuedWhileFresh(inj, request, before);
      T.RunRequest(inj, request, before);
      InputFrom(inj, T.Run(inj, request, before).session, ops[|ops| - 1]);
      hide Apply;
    }
  }

  // ---- The oldest frame is processed ----

  /** What becomes of the oldest frame once it is ready: it fails when told to or when more than
      1200 ms would wait to be played, and otherwise moves, reversed, to the output. */
  ghost predicate ReadyFate(inj: Injection, s: Session, f: Frame, s': Session, es: seq<Event>)
    requires s.input != [] && |f.pcm| % 2 == 0
  {
    var rest := s.(input := s.input[1..]);
    if inj.failAfterFrames.Some? && s.processed >= inj.failAfterFrames.value
    then es == Failure(s, f, ProviderUnavailable) && Gone(rest, s', f.utterance)
    else if Ms(s.output) + f.format.frameDurationMs > 1200
    then es == Failure(s, f, QueueOverflow) && Gone(rest, s', f.utterance)
    else
      && s'.input == s.input[1..] && s'.output == s.output + [QueuedOutput(f, ReverseSamples(f.pcm))]
      && s'.streams == s.streams && s'.ended == s.ended && s'.terminal == s.terminal
      && s'.processed == s.processed + 1
      && es == if s.debugText
               then [TranscriptDelta(Stamp(s, 1), f.stream, f.utterance, f.endOfUtterance),
                     TranslationDelta(Stamp(s, 2), f.stream, f.utterance, f.endOfUtterance)]
               else []
  }

  lemma ReadyAnswered(inj: Injection, s: Session, f: Frame)
    requires s.input != [] && |f.pcm| % 2 == 0 && s.outputMs == Ms(s.output)
    requires Processed(inj, PopInput(s), f).answer.Events?
    ensures var r := Processed(inj, PopInput(s), f); ReadyFate(inj, s, f, r.session, r.answer.events)
  {
    hide FailUtterance, Gone, ReverseSamples, Ms;
    var s2 := PopInput(s).(processed := s.processed + 1);
    if inj.failAfterFrames.Some? && s.processed >= inj.failAfterFrames.value {
      FailIs(s2, f, ProviderUnavailable);
      GoneFrom(s, s2, FailUtterance(s2, f, ProviderUnavailable).session, f.utterance);
    } else if s.outputMs + f.format.frameDurationMs > 1200 {
      FailIs(s2, f, QueueOverflow);
      GoneFrom(s, s2, FailUtterance(s2, f, QueueOverflow).session, f.utterance);
    }
  }

  /** Processing drops the oldest frame's utterance if it is too old by now, leaves it if its
      delay is not over, and otherwise it is ready. */
  lemma HeadAnswered(inj: Injection, s: Session, now: nat)
    requires Inv(s) && s.input != [] && ProcessNext(inj, s, now).answer.Events?
    ensures s.input[0].QueuedInput? && |s.input[0].frame.pcm| % 2 == 0
    ensures var (s', es) := (ProcessNext(inj, s, now).session, ProcessNext(inj, s, now).answer.events);
            var (f, since) := (s.input[0].frame, s.input[0].enqueuedNs);
            if TooOld(s, f, now)
            then
              var last := Lookup(s.lastAudio, f.utterance);
              && es == [UtteranceFinal(Stamp(s, 1), f.stream, f.utterance, last, Dropped)]
              && Gone(s.(input := s.input[1..]), s', f.utterance) && s'.processed == s.processed
            else if now < since + inj.processDelayMs * 1_000_000 then es == [] && s' == s
            else ReadyFate(inj, s, f, s', es)
  {
    T.QueueKinds(s);
    WaitingMs(s);
    var (f, s1) := (s.input[0].frame, PopInput(s));
    T.NotTooOld(s.request.mode, f.captureNs, now);
    hide Inv, Terminate, Processed, Gone, ReadyFate, Expired, OldestNs;
    if TooOld(s, f, now) {
      TerminateIs(s1, f.stream, f.utterance, Dropped);
      TerminateProcessed(s1, f.stream, f.utterance, Dropped);
      GoneFrom(s, s1, Terminate(s1, f.stream, f.utterance, Dropped).session, f.utterance);
    } else if now >= s.input[0].enqueuedNs + inj.processDelayMs * 1_000_000 {
      ReadyAnswered(inj, s, f);
    }
  }

  lemma TerminateProcessed(s: Session, stream: Uuid, u: Uuid, outcome: Outcome)
    ensures Terminate(s, stream, u, outcome).session.processed == s.processed
  {
    hide Without, MsOf;
  }

  lemma GoneFrom(s: Session, s1: Session, s': Session, u: Uuid)
    requires s.input != [] && Gone(s1, s', u)
    requires s1 == s.(input := s.input[1..], inputMs := s1.inputMs, processed := s1.processed)
    ensures Gone(s.(input := s.input[1..]), s', u)
  {
    hide FramesIn;
  }

  // ---- The output is played ----

  /** An event but for who sent it and its number. */
  function Bare(e: Event): Event {
    e.(header := Header(Uuid(0), Microphone, 0))
  }

  function Bares(es: seq<Event>): (r: seq<Event>)
    ensures |r| == |es|
  {
    seq(|es|, i requires 0 <= i < |es| => Bare(es[i]))
  }

  function AudioSaid(f: Frame, number: nat, now: nat): Event
    requires |f.pcm| % 2 == 0
  {
    AudioDelta(Header(Uuid(0), Microphone, 0), f.stream, f.utterance, number, now, f.format, ReverseSamples(f.pcm))
  }

  /** Whole milliseconds from capture to now. */
  function LatencySaid(f: Frame, now: nat): Event {
    var ms := if now < f.captureNs then 0 else (now - f.captureNs) / 1_000_000;
    Latency(Header(Uuid(0), Microphone, 0), f.stream, Some(f.utterance), None, None, None, Some(ms), Some(ms))
  }

  function EndSaid(f: Frame, last: Option<nat>, outcome: Outcome): Event {
    UtteranceFinal(Header(Uuid(0), Microphone, 0), f.stream, f.utterance, last, outcome)
  }

  /** One utterance played on its own: frame after frame with its latency, up to a frame that
      is too old, which drops the rest, or the last one, which completes it. */
  function Replay(mode: Mode, fs: seq<Frame>, number: nat, now: nat): seq<Event>
    requires forall f <- fs :: |f.pcm| % 2 == 0
  {
    if fs == [] then []
    else if now - fs[0].captureNs > OldestNs(mode) then [EndSaid(fs[0], LastOf(number), Dropped)]
    else
      [AudioSaid(fs[0], number, now), LatencySaid(fs[0], now)] +
      (if fs[0].endOfUtterance then [EndSaid(fs[0], Some(number), Completed)]
       else Replay(mode, fs[1..], number + 1, now))
  }

  lemma {:induction false} AboutBoth(a: seq<Event>, b: seq<Event>, u: Uuid)
    ensures T.About(a + b, u) == T.About(a, u) + T.About(b, u)
  {
    if b == [] {
      assert a + b == a;
    } else {
      assert (a + b)[..|a + b| - 1] == a + b[..|b| - 1];
      AboutBoth(a, b[..|b| - 1], u);
    }
  }

  lemma AboutOne(e: Event, u: Uuid)
    ensures T.About([e], u) == if e.Subject() == Some(u) then [e] else []
  {
    assert [e][..0] == [];
  }

  /** The number the next audio of an utterance bears. */
  function NextNumber(s: Session, u: Uuid): nat {
    if u in s.nextAudio then s.nextAudio[u] else 0
  }

  lemma {:induction false} FramesInEven(q: seq<Queued>, u: Uuid)
    requires forall x <- q :: |x.frame.pcm| % 2 == 0
    ensures forall f <- FramesIn(q, u) :: |f.pcm| % 2 == 0 && f.utterance == u
  {
    if q != [] {
      FramesInEven(q[1..], u);
    }
  }

  /** What one turn of the drain loop, on the oldest frame, says of one utterance and leaves of it. */
  ghost predicate Turn(s: Session, f: Frame, r: Reply, now: nat, u: Uuid)
    requires r.answer.Events? && |f.pcm| % 2 == 0
  {
    var (about, n) := (Bares(T.About(r.answer.events, u)), NextNumber(s, u));
    var played := [AudioSaid(f, n, now), LatencySaid(f, now)];
    if u != f.utterance
    then about == [] && FramesIn(r.session.output, u) == FramesIn(s.output, u) && NextNumber(r.session, u) == n
    else if TooOld(s, f, now)
    then about == [EndSaid(f, LastOf(n), Dropped)] && FramesIn(r.session.output, u) == []
    else if f.endOfUtterance
    then about == played + [EndSaid(f, Some(n), Completed)] && FramesIn(r.session.output, u) == []
    else about == played && FramesIn(s.output, u) == [f] + FramesIn(r.session.output, u)
         && NextNumber(r.session, u) == n + 1
  }

  lemma EndingTurn(s: Session, f: Frame, u: Uuid, outcome: Outcome)
    requires Terminate(s, f.stream, f.utterance, outcome).answer.Events?
    ensures var r := Terminate(s, f.stream, f.utterance, outcome);
            && Bares(T.About(r.answer.events, u)) ==
                 (if u == f.utterance then [EndSaid(f, Lookup(s.lastAudio, u), outcome)] else [])
            && FramesIn(r.session.output, u) == (if u == f.utterance then [] else FramesIn(s.output, u))
            && (u != f.utterance ==> NextNumber(r.session, u) == NextNumber(s, u))
  {
    hide FramesIn, Terminate, T.About, Bares;
    TerminateIs(s, f.stream, f.utterance, outcome);
    var r := Terminate(s, f.stream, f.utterance, outcome);
    AboutOne(r.answer.events[0], u);
    BaresFew(r.answer.events[0]);
    TerminateNumbers(s, f.stream, f.utterance, outcome, u);
  }

  lemma BaresFew(e: Event)
    ensures Bares([]) == [] && Bares([e]) == [Bare(e)]
  {}

  lemma TerminateNumbers(s: Session, stream: Uuid, x: Uuid, outcome: Outcome, u: Uuid)
    ensures u != x ==> NextNumber(Terminate(s, stream, x, outcome).session, u) == NextNumber(s, u)
  {
    hide Without, MsOf;
  }

  lemma AudioTurn(s: Session, q: Queued, now: nat, u: Uuid)
    requires q.QueuedOutput? && |q.frame.pcm| % 2 == 0 && q.pcm == ReverseSamples(q.frame.pcm)
    ensures var f := q.frame;
            Bares(T.About(AudioEvents(s, q, now), u)) ==
            if u == f.utterance then [AudioSaid(f, NextNumber(s, u), now), LatencySaid(f, now)] else []
  {
    hide ReverseSamples;
    var es := AudioEvents(s, q, now);
    assert es == [es[0]] + [es[1]];
    AboutBoth([es[0]], [es[1]], u);
    AboutOne(es[0], u);
    AboutOne(es[1], u);
  }

  lemma BaresBoth(a: seq<Event>, b: seq<Event>)
    ensures Bares(a + b) == Bares(a) + Bares(b)
  {}

  lemma HeadPops(s: Session, u: Uuid)
    requires Inv(s) && s.output != []
    ensures var (q, f) := (s.output[0], s.output[0].frame);
            && q.QueuedOutput? && |f.pcm| % 2 == 0 && q.pcm == ReverseSamples(f.pcm)
            && FramesIn(s.output, u) ==
                 (if u == f.utterance then [f] else []) + FramesIn(PopOutput(s).output, u)
            && Lookup(s.lastAudio, f.utterance) == LastOf(NextNumber(s, f.utterance))
  {
    T.HeadOfOutput(s);
    T.FramesInPop(s.output, u);
    hide Inv, FramesIn, ReverseSamples;
  }

  lemma TurnDrops(s: Session, now: nat, u: Uuid)
    requires Inv(s) && s.output != [] && s.output[0].QueuedOutput? && |s.output[0].frame.pcm| % 2 == 0
    requires TooOld(s, s.output[0].frame, now)
    requires Terminate(PopOutput(s), s.output[0].frame.stream, s.output[0].frame.utterance, Dropped).answer.Events?
    ensures var f := s.output[0].frame;
            Turn(s, f, Terminate(PopOutput(s), f.stream, f.utterance, Dropped), now, u)
  {
    hide Inv, Terminate, FramesIn, OldestNs, ReverseSamples, T.About, Bares, AudioSaid, LatencySaid;
    HeadPops(s, u);
    EndingTurn(PopOutput(s), s.output[0].frame, u, Dropped);
  }

  lemma TurnPlays(s: Session, now: nat, u: Uuid)
    requires Inv(s) && s.output != [] && s.output[0].QueuedOutput? && |s.output[0].frame.pcm| % 2 == 0
    requires !TooOld(s, s.output[0].frame, now) && !s.output[0].frame.endOfUtterance
    ensures var (q, s1) := (s.output[0], PopOutput(s));
            var r := Reply(AudioEmitted(s1, q.frame.utterance), Events(AudioEvents(s1, q, now)));
            Turn(s, q.frame, r, now, u)
  {
    hide Inv, FramesIn, OldestNs, ReverseSamples, T.About, Bares, AudioSaid, LatencySaid, AudioEvents;
    HeadPops(s, u);
    AudioTurn(PopOutput(s), s.output[0], now, u);
  }

  lemma TurnCompletes(s: Session, now: nat, u: Uuid)
    requires Inv(s) && s.output != [] && s.output[0].QueuedOutput? && |s.output[0].frame.pcm| % 2 == 0
    requires !TooOld(s, s.output[0].frame, now) && s.output[0].frame.endOfUtterance
    requires var (q, s1) := (s.output[0], PopOutput(s));
             Terminate(AudioEmitted(s1, q.frame.utterance), q.frame.stream, q.frame.utterance, Completed).answer.Events?
    ensures var (q, s1) := (s.output[0], PopOutput(s));
            var end := Terminate(AudioEmitted(s1, q.frame.utterance), q.frame.stream, q.frame.utterance, Completed);
            Turn(s, q.frame, end.(answer := Events(AudioEvents(s1, q, now) + end.answer.events)), now, u)
  {
    hide Inv, Terminate, FramesIn, OldestNs, ReverseSamples, T.About, Bares, AudioSaid, LatencySaid, AudioEvents;
    HeadPops(s, u);
    var (q, s1) := (s.output[0], PopOutput(s));
    AudioTurn(s1, q, now, u);
    var s2 := AudioEmitted(s1, q.frame.utterance);
    EndingTurn(s2, q.frame, u, Completed);
    var b := Terminate(s2, q.frame.stream, q.frame.utterance, Completed).answer.events;
    AboutBoth(AudioEvents(s1, q, now), b, u);
    BaresBoth(T.About(AudioEvents(s1, q, now), u), T.About(b, u));
  }

  lemma TurnSaid(s: Session, now: nat, u: Uuid)
    requires Inv(s) && s.output != [] && s.output[0].QueuedOutput? && |s.output[0].frame.pcm| % 2 == 0
    requires DrainOne(PopOutput(s), s.output[0], now).answer.Events?
    ensures Turn(s, s.output[0].frame, DrainOne(PopOutput(s), s.output[0], now), now, u)
  {
    hide Inv, Terminate, Turn, Expired, OldestNs, AudioEvents, AudioEmitted;
    var f := s.output[0].frame;
    T.NotTooOld(s.request.mode, f.captureNs, now);
    if TooOld(s, f, now) {
      TurnDrops(s, now, u);
    } else if f.endOfUtterance {
      TurnCompletes(s, now, u);
    } else {
      TurnPlays(s, now, u);
    }
  }

  /** So a turn says the beginning of the replay and leaves the rest of it. */
  lemma ReplayTurn(s: Session, f: Frame, r: Reply, now: nat, u: Uuid)
    requires r.answer.Events? && |f.pcm| % 2 == 0 && Turn(s, f, r, now, u)
    requires f.utterance == u ==> FramesIn(s.output, u) != [] && FramesIn(s.output, u)[0] == f
    requires forall x <- FramesIn(s.output, u) :: |x.pcm| % 2 == 0
    requires forall x <- FramesIn(r.session.output, u) :: |x.pcm| % 2 == 0
    ensures Replay(s.request.mode, FramesIn(s.output, u), NextNumber(s, u), now) ==
            Bares(T.About(r.answer.events, u)) +
            Replay(s.request.mode, FramesIn(r.session.output, u), NextNumber(r.session, u), now)
  {
    hide FramesIn, T.About, Bares, AudioSaid, LatencySaid, OldestNs, NextNumber;
  }

  /** Draining plays every utterance as if it were alone, whatever the others in the queue. */
  lemma {:induction false} DrainSaid(s: Session, now: nat, u: Uuid)
    requires Inv(s) && DrainFrom(s, now).answer.Events?
    ensures forall f <- FramesIn(s.output, u) :: |f.pcm| % 2 == 0
    ensures Bares(T.About(DrainFrom(s, now).answer.events, u)) ==
            Replay(s.request.mode, FramesIn(s.output, u), NextNumber(s, u), now)
    ensures DrainFrom(s, now).session.output == []
    decreases |s.output|
  {
    hide Inv, DrainOne, FramesIn, T.About, Bares, Replay, Turn, NextNumber;
    EvenFrames(s, u);
    T.QueueKinds(s);
    if s.output != [] {
      HeadPops(s, u);
      DrainOneKeepsInv(s, now);
      T.DrainOneSettles(PopOutput(s), s.output[0], now);
      TurnSaid(s, now, u);
      var one := DrainOne(PopOutput(s), s.output[0], now);
      T.QueueKinds(one.session);
      EvenFrames(one.session, u);
      ReplayTurn(s, s.output[0].frame, one, now, u);
      DrainSaid(one.session, now, u);
      var more := DrainFrom(one.session, now).answer.events;
      AboutBoth(one.answer.events, more, u);
      BaresBoth(T.About(one.answer.events, u), T.About(more, u));
    } else {
      NothingSaid(s, u, now);
    }
  }

  lemma NothingSaid(s: Session, u: Uuid, now: nat)
    requires s.output == []
    ensures FramesIn(s.output, u) == [] && Bares(T.About([], u)) == []
    ensures Replay(s.request.mode, [], NextNumber(s, u), now) == []
  {}

  lemma EvenFrames(s: Session, u: Uuid)
    requires Inv(s)
    ensures forall f <- FramesIn(s.output, u) :: |f.pcm| % 2 == 0
  {
    hide InputOk, IdsOk, NumbersOk, Openable, PcmFormat.FrameBytes, ReverseSamples, FramesIn;
    FramesInEven(s.output, u);
  }

  // ---- What can be opened ----

  /** A session is opened for one format both ways: 16, 24 or 48 kHz, mono or stereo, 16 bits, in
      frames of 20 to 100 ms; such a frame has this many bytes. */
  lemma OpensIff(request: OpenRequest)
    ensures var f := request.inputFormat;
            Openable(request) <==>
              && request.outputFormat == f && f.s16le
              && (f.sampleRateHz == 16_000 || f.sampleRateHz == 24_000 || f.sampleRateHz == 48_000)
              && (f.channels == 1 || f.channels == 2)
              && 20 <= f.frameDurationMs <= 100 && f.frameDurationMs % 20 == 0
    ensures Openable(request) ==>
              var f := request.inputFormat;
              1000 * f.FrameBytes() == 2 * f.channels * f.sampleRateHz * f.frameDurationMs
  {
    var f := request.inputFormat;
    if Openable(request) {
      WholeBytes(f.sampleRateHz / 1000, f.channels, f.frameDurationMs);
      assert f.sampleRateHz == 1000 * (f.sampleRateHz / 1000);
    }
  }

  lemma WholeBytes(khz: nat, channels: nat, ms: nat)
    ensures 1000 * khz * channels * 2 * ms / 1000 * 1000 == 2 * channels * (1000 * khz) * ms
  {
    var n := khz * channels * 2 * ms;
    assert 1000 * khz * channels * 2 * ms == 1000 * n;
  }
}
