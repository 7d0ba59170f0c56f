/** A provider session as a reader of its history: over every run, which frames and
    cancellations it refuses is fixed by the frames taken and the events returned so far. */
module EngineHistory {
  import opened Wire
  import opened Figures
  import opened EngineModel
  import opened EngineRuns
  import opened EngineAnswers
  import T = EngineTraces

  /** The frames of the calls that returned, queued or not. */
  ghost function Taken(inj: Injection, request: OpenRequest, ops: seq<Op>): seq<Frame>
    requires Openable(request)
  {
    if ops == [] then []
    else
      var op := ops[|ops| - 1];
      Taken(inj, request, ops[..|ops| - 1]) +
      if op.Enqueue? && !T.Run(inj, request, ops).raised then [op.frame] else []
  }

  // ---- Reading frames and events ----

  /** Utterances that have ended. */
  function EndedIn(es: seq<Event>): set<Uuid> {
    set e <- es | e.UtteranceFinal? :: e.utterance
  }

  predicate ClosedIn(es: seq<Event>) {
    exists e <- es :: e.SessionClosed?
  }

  /** Utterances with a frame taken and no end returned. */
  function OpenIn(fs: seq<Frame>, es: seq<Event>): set<Uuid> {
    set f <- fs | f.utterance !in EndedIn(es) :: f.utterance
  }

  /** The last frame of the utterance was taken. */
  predicate LastTaken(fs: seq<Frame>, u: Uuid) {
    exists f <- fs :: f.utterance == u && f.endOfUtterance
  }

  // ---- What one call does to the books ----

  /** The books after a call that returned, told from its frame and its events. */
  ghost predicate Kept(s: Session, op: Op, r: Reply)
    requires r.answer.Events?
  {
    var (s', es) := (r.session, r.answer.events);
    && s'.closed == (s.closed || ClosedIn(es))
    && s'.terminal == s.terminal + EndedIn(es)
    && (!s'.closed ==>
          && (forall x :: x in s'.streams <==>
                (x in s.streams || (op.Enqueue? && x == op.frame.utterance)) && x !in EndedIn(es))
          && (forall x <- s'.streams :: x in s'.ended <==>
                x in s.ended || (op.Enqueue? && x == op.frame.utterance && op.frame.endOfUtterance)))
  }

  lemma GoneKept(s: Session, rest: Session, op: Op, r: Reply, u: Uuid)
    requires r.answer.Events? && Gone(rest, r.session, u) && EndedIn(r.answer.events) == {u}
    requires rest.terminal == s.terminal && rest.streams == s.streams && rest.ended == s.ended
    requires r.session.closed == s.closed && !ClosedIn(r.answer.events)
    requires op.Enqueue? ==> op.frame.utterance == u
    ensures Kept(s, op, r)
  {
    hide FramesIn;
  }

  lemma EndEvents(e: Event, f: Event)
    requires e.UtteranceFinal? && f.Error?
    ensures EndedIn([e]) == {e.utterance} && !ClosedIn([e])
    ensures EndedIn([f, e]) == {e.utterance} && !ClosedIn([f, e])
  {
    assert e in [e] && e in [f, e];
  }

  lemma TextEvents(e: Event, f: Event)
    requires e.TranscriptDelta? && f.TranslationDelta?
    ensures EndedIn([e, f]) == {} && !ClosedIn([e, f]) && EndedIn([]) == {} && !ClosedIn([])
  {}

  lemma EnqueueClosed(s: Session, f: Frame, now: nat)
    requires EnqueueFrame(s, f, now).answer.Events?
    ensures !s.closed && !EnqueueFrame(s, f, now).session.closed
  {
    hide FrameError, Without, MsOf, Expired;
  }

  lemma EnqueueKept(s: Session, f: Frame, now: nat)
    requires Inv(s) && EnqueueFrame(s, f, now).answer.Events?
    ensures Kept(s, Enqueue(f, now), EnqueueFrame(s, f, now))
  {
    FrameAnswered(s, f, now);
    EnqueueClosed(s, f, now);
    hide Inv, EnqueueFrame, Gone, OldestNs, Ms, Kept;
    var r := EnqueueFrame(s, f, now);
    var es := r.answer.events;
    if es != [] {
      EndEvents(es[|es| - 1], Error(Stamp(s, 1), Some(f.stream), Some(f.utterance), QueueOverflow));
      GoneKept(s, s, Enqueue(f, now), r, f.utterance);
    } else {
      QueuedKept(s, f, now, r);
    }
  }

  lemma QueuedKept(s: Session, f: Frame, now: nat, r: Reply)
    requires r.answer == Events([]) && r.session.closed == s.closed && r.session.terminal == s.terminal
    requires forall x :: x in r.session.streams <==> x == f.utterance || x in s.streams
    requires forall x :: x in r.session.ended <==> x in s.ended || (x == f.utterance && f.endOfUtterance)
    ensures Kept(s, Enqueue(f, now), r)
  {}

  lemma ProcessClosed(inj: Injection, s: Session, now: nat)
    requires Inv(s) && ProcessNext(inj, s, now).answer.Events?
    ensures !s.closed && !ProcessNext(inj, s, now).session.closed
  {
    hide Without, MsOf, Expired, ReverseSamples, OutputOk, IdsOk, NumbersOk, Openable, PcmFormat.FrameBytes;
  }

  lemma ProcessKept(inj: Injection, s: Session, now: nat)
    requires Inv(s) && ProcessNext(inj, s, now).answer.Events?
    ensures Kept(s, Process(now), ProcessNext(inj, s, now))
  {
    ProcessClosed(inj, s, now);
    T.QueueKinds(s);
    var r := ProcessNext(inj, s, now);
    if s.input == [] {
      QuietKept(s, Process(now), r);
    } else {
      HeadAnswered(inj, s, now);
      hide Inv, ProcessNext, Gone, OldestNs, Ms, Kept, ReverseSamples;
      var (f, es) := (s.input[0].frame, r.answer.events);
      if es == [] || es[|es| - 1].TranslationDelta? {
        QuietKept(s, Process(now), r);
      } else {
        EndEvents(es[|es| - 1], Error(Stamp(s, 1), Some(f.stream), Some(f.utterance), QueueOverflow));
        EndEvents(es[|es| - 1], Error(Stamp(s, 1), Some(f.stream), Some(f.utterance), ProviderUnavailable));
        GoneKept(s, s.(input := s.input[1..]), Process(now), r, f.utterance);
      }
    }
  }

  lemma QuietKept(s: Session, op: Op, r: Reply)
    requires r.answer.Events? && forall e <- r.answer.events :: !e.UtteranceFinal? && !e.SessionClosed?
    requires r.session.closed == s.closed && r.session.terminal == s.terminal && r.session.streams == s.streams
    requires r.session.ended == s.ended && !op.Enqueue?
    ensures Kept(s, op, r)
  {}

  lemma TerminateClosed(s: Session, stream: Uuid, u: Uuid, outcome: Outcome)
    ensures Terminate(s, stream, u, outcome).session.closed == s.closed
  {
    hide Without, MsOf;
  }

  lemma TurnKept(s: Session, now: nat)
    requires Inv(s) && s.output != [] && s.output[0].QueuedOutput?
    requires DrainOne(PopOutput(s), s.output[0], now).answer.Events?
    ensures Kept(s, Drain(now), DrainOne(PopOutput(s), s.output[0], now))
  {
    hide Inv, Terminate, Gone, Kept, Expired;
    var (q, f, s1) := (s.output[0], s.output[0].frame, PopOutput(s));
    var r := DrainOne(s1, q, now);
    var s2 := AudioEmitted(s1, f.utterance);
    if Expired(s.request.mode, f.captureNs, now) {
      TerminateIs(s1, f.stream, f.utterance, Dropped);
      TerminateClosed(s1, f.stream, f.utterance, Dropped);
      GoneKept(s, s1, Drain(now), r, f.utterance);
    } else if f.endOfUtterance {
      TerminateIs(s2, f.stream, f.utterance, Completed);
      TerminateClosed(s2, f.stream, f.utterance, Completed);
      var es := AudioEvents(s1, q, now);
      var e := Terminate(s2, f.stream, f.utterance, Completed).answer.events[0];
      assert (es + [e])[|es|] == e;
      assert EndedIn(es + [e]) == {f.utterance};
      GoneKept(s, s2, Drain(now), r, f.utterance);
    } else {
      QuietKept(s, Drain(now), r);
    }
  }

  lemma EndedBoth(a: seq<Event>, b: seq<Event>)
    ensures EndedIn(a + b) == EndedIn(a) + EndedIn(b)
    ensures ClosedIn(a + b) <==> ClosedIn(a) || ClosedIn(b)
  {
    forall e ensures e in a + b <==> e in a || e in b {}
    var (x, y) := (EndedIn(a + b), EndedIn(a) + EndedIn(b));
    forall u ensures u in x <==> u in y {
      if u in x {
        var e :| e in a + b && e.UtteranceFinal? && e.utterance == u;
      }
    }
  }

  lemma {:induction false} DrainKept(s: Session, now: nat)
    requires Inv(s) && DrainFrom(s, now).answer.Events? && !s.closed
    ensures Kept(s, Drain(now), DrainFrom(s, now))
    decreases |s.output|
  {
    T.QueueKinds(s);
    if s.output == [] {
      QuietKept(s, Drain(now), DrainFrom(s, now));
    } else {
      DrainOneKeepsInv(s, now);
      TurnKept(s, now);
      TurnOpen(PopOutput(s), s.output[0], now);
      var one := DrainOne(PopOutput(s), s.output[0], now);
      T.QueueKinds(one.session);
      hide Inv, DrainOne;
      DrainKept(one.session, now);
      var rest := DrainFrom(one.session, now);
      EndedBoth(one.answer.events, rest.answer.events);
      KeptThrough(s, one, rest, now);
    }
  }

  lemma TurnOpen(s: Session, q: Queued, now: nat)
    requires q.QueuedOutput?
    ensures DrainOne(s, q, now).session.closed == s.closed
  {
    hide Terminate, Expired;
    TerminateClosed(s, q.frame.stream, q.frame.utterance, Dropped);
    TerminateClosed(AudioEmitted(s, q.frame.utterance), q.frame.stream, q.frame.utterance, Completed);
  }

  lemma KeptThrough(s: Session, one: Reply, rest: Reply, now: nat)
    requires one.answer.Events? && rest.answer.Events? && !one.session.closed
    requires Kept(s, Drain(now), one) && Kept(one.session, Drain(now), rest)
    requires EndedIn(one.answer.events + rest.answer.events) == EndedIn(one.answer.events) + EndedIn(rest.answer.events)
    requires ClosedIn(one.answer.events + rest.answer.events) <==>
               ClosedIn(one.answer.events) || ClosedIn(rest.answer.events)
    ensures Kept(s, Drain(now), rest.(answer := Events(one.answer.events + rest.answer.events)))
  {
    hide EndedIn, ClosedIn;
  }

  lemma CancelKept(s: Session, d: Direction, u: Uuid)
    requires CancelUtterance(s, d, u).answer.Events?
    ensures Kept(s, Cancel(d, u), CancelUtterance(s, d, u)) && u in s.streams && d == s.request.direction && !s.closed
    ensures CancelUtterance(s, d, u).answer.events ==
            [UtteranceFinal(Stamp(s, 1), s.streams[u], u, Lookup(s.lastAudio, u), Cancelled)]
    ensures Gone(s, CancelUtterance(s, d, u).session, u)
  {
    hide Terminate, Kept;
    var s1 := PurgeQueues(s, u);
    TerminateIs(s1, s.streams[u], u, Cancelled);
    TerminateClosed(s1, s.streams[u], u, Cancelled);
    var r := CancelUtterance(s, d, u);
    PurgedGone(s, r.session, u);
    hide Gone, PurgeQueues;
    EndEvents(r.answer.events[0], Error(Stamp(s, 1), None, None, QueueOverflow));
    GoneKept(s, s, Cancel(d, u), r, u);
  }

  lemma PurgedGone(s: Session, s': Session, u: Uuid)
    requires Gone(PurgeQueues(s, u), s', u)
    ensures Gone(s, s', u) && PurgeQueues(s, u).closed == s.closed
  {
    hide FramesIn, Without, MsOf;
    forall x
      ensures FramesIn(PurgeQueues(s, u).input, x) == if x == u then [] else FramesIn(s.input, x)
      ensures FramesIn(PurgeQueues(s, u).output, x) == if x == u then [] else FramesIn(s.output, x)
    {
      FramesInWithout(s.input, u, x);
      FramesInWithout(s.output, u, x);
    }
  }

  lemma CallKept(inj: Injection, s: Session, op: Op)
    requires Inv(s) && Apply(inj, s, op).answer.Events?
    ensures Kept(s, op, Apply(inj, s, op)) && !s.closed
  {
    T.QueueKinds(s);
    hide Inv, EnqueueFrame, ProcessNext, DrainFrom, CancelUtterance;
    match op
    case Enqueue(f, now) => EnqueueKept(s, f, now); EnqueueClosed(s, f, now); hide Kept;
    case Process(now) => ProcessKept(inj, s, now); ProcessClosed(inj, s, now); hide Kept;
    case Drain(now) => DrainKept(s, now); hide Kept;
    case Cancel(d, u) => CancelKept(s, d, u); hide Kept;
    case Close =>
      var e := Apply(inj, s, op).answer.events[0];
      assert e in [e] && EndedIn([e]) == {};
    case _ => QuietKept(s, op, Apply(inj, s, op));
  }

  // ---- The books are the history ----

  ghost predicate Meant(s: Session, request: OpenRequest, fs: seq<Frame>, es: seq<Event>) {
    && s.request == request
    && s.lastFrameSequence == (if fs == [] then None else Some(fs[|fs| - 1].sequence))
    && s.streamId == (if fs == [] then None else Some(fs[|fs| - 1].stream))
    && s.closed == ClosedIn(es) && s.terminal == EndedIn(es)
    && (!s.closed ==> s.streams.Keys == OpenIn(fs, es)
                      && forall u <- s.streams :: u in s.ended <==> LastTaken(fs, u))
  }

  lemma MeantMore(inj: Injection, request: OpenRequest, s: Session, fs: seq<Frame>, es: seq<Event>, op: Op)
    requires Inv(s) && Meant(s, request, fs, es) && Apply(inj, s, op).answer.Events?
    ensures var r := Apply(inj, s, op);
            Meant(r.session, request, if op.Enqueue? then fs + [op.frame] else fs, es + r.answer.events)
  {
    CallKept(inj, s, op);
    SettledAfter(inj, s, op);
    hide Inv, Apply;
    var r := Apply(inj, s, op);
    var (fs', es', s') := (if op.Enqueue? then fs + [op.frame] else fs, es + r.answer.events, r.session);
    EndedBoth(es, r.answer.events);
    if !s'.closed {
      forall u ensures u in s'.streams.Keys <==> u in OpenIn(fs', es') {
        OpenMore(fs, es, op, r.answer.events, u);
      }
      forall u <- s'.streams ensures u in s'.ended <==> LastTaken(fs', u) {
        LastMore(fs, op, u);
        OpenMore(fs, es, op, r.answer.events, u);
      }
    }
  }

  lemma SettledAfter(inj: Injection, s: Session, op: Op)
    requires Inv(s) && Apply(inj, s, op).answer.Events?
    ensures var s' := Apply(inj, s, op).session;
            && s'.request == s.request
            && s'.lastFrameSequence == (if op.Enqueue? then Some(op.frame.sequence) else s.lastFrameSequence)
            && s'.streamId == (if op.Enqueue? then Some(op.frame.stream) else s.streamId)
  {
    T.RequestStays(inj, s, op);
    if op.Enqueue? {
      T.EnqueueSettles(s, op.frame, op.now);
    }
    hide Inv, EnqueueFrame, ProcessNext, DrainFrom, CancelUtterance;
  }

  lemma OpenMore(fs: seq<Frame>, es: seq<Event>, op: Op, more: seq<Event>, u: Uuid)
    ensures var fs' := if op.Enqueue? then fs + [op.frame] else fs;
            u in OpenIn(fs', es + more) <==>
              && (u in OpenIn(fs, es) || (op.Enqueue? && op.frame.utterance == u && u !in EndedIn(es)))
              && u !in EndedIn(more)
  {
    EndedBoth(es, more);
    hide EndedIn;
    var fs' := if op.Enqueue? then fs + [op.frame] else fs;
    assert forall f :: f in fs' <==> f in fs || (op.Enqueue? && f == op.frame);
    if u in OpenIn(fs, es) {
      var f :| f in fs && f.utterance == u;
      assert f in fs';
    }
    if op.Enqueue? {
      assert op.frame in fs';
    }
  }

  lemma LastMore(fs: seq<Frame>, op: Op, u: Uuid)
    ensures var fs' := if op.Enqueue? then fs + [op.frame] else fs;
            LastTaken(fs', u) <==>
              LastTaken(fs, u) || (op.Enqueue? && op.frame.utterance == u && op.frame.endOfUtterance)
  {
    var fs' := if op.Enqueue? then fs + [op.frame] else fs;
    assert forall f :: f in fs' <==> f in fs || (op.Enqueue? && f == op.frame);
  }

  lemma {:induction false} RunMeant(inj: Injection, request: OpenRequest, ops: seq<Op>)
    requires Openable(request) && !T.Run(inj, request, ops).raised
    ensures var t := T.Run(inj, request, ops);
            Meant(t.session, request, Taken(inj, request, ops), t.events)
  {
    hide Meant, Apply, Inv, T.Run, Taken;
    if ops == [] {
      StartMeant(request);
      T.NoneYet(inj, request);
      NoneTaken(inj, request);
    } else {
      var (before, op) := (ops[..|ops| - 1], ops[|ops| - 1]);
      T.OneMore(inj, request, ops);
      OneTaken(inj, request, ops);
      RunMeant(inj, request, before);
      var t := T.Run(inj, request, before);
      MeantMore(inj, request, t.session, Taken(inj, request, before), t.events, op);
    }
  }

  lemma NoneTaken(inj: Injection, request: OpenRequest)
    requires Openable(request)
    ensures Taken(inj, request, []) == []
  {}

  lemma OneTaken(inj: Injection, request: OpenRequest, ops: seq<Op>)
    requires Openable(request) && ops != [] && !T.Run(inj, request, ops).raised
    ensures var (fs, op) := (Taken(inj, request, ops[..|ops| - 1]), ops[|ops| - 1]);
            Taken(inj, request, ops) == if op.Enqueue? then fs + [op.frame] else fs
  {
    hide T.Run;
  }

  lemma StartMeant(request: OpenRequest)
    ensures Meant(Opened(request), request, [], [OpenedEvent(request)])
  {
    assert EndedIn([OpenedEvent(request)]) == {};
  }

  // ---- What is refused ----

  /** A frame the session must refuse, whatever the clock says. */
  predicate Unwelcome(request: OpenRequest, fs: seq<Frame>, es: seq<Event>, f: Frame) {
    || f.session != request.session || f.direction != request.direction
    || ClosedIn(es) || f.utterance in EndedIn(es) || LastTaken(fs, f.utterance)
    || (fs != [] && (f.stream != fs[|fs| - 1].stream || f.sequence <= fs[|fs| - 1].sequence))
    || f.format != request.inputFormat || |f.pcm| != f.format.FrameBytes()
    || f.source != request.source || f.target != request.target || f.mode != request.mode
    || (f.utterance !in OpenIn(fs, es) && |OpenIn(fs, es)| >= 64)
  }

  lemma FrameRefused(s: Session, request: OpenRequest, fs: seq<Frame>, es: seq<Event>, f: Frame)
    requires Inv(s) && Meant(s, request, fs, es)
    ensures Unwelcome(request, fs, es, f) <==>
              || f.session != s.request.session || s.closed || FrameError(s, f).Some?
              || (f.utterance !in s.streams && |s.streams| >= MAX_ACTIVE_UTTERANCES)
    ensures !s.closed ==> |s.streams| == |OpenIn(fs, es)|
  {
    hide InputOk, OutputOk, NumbersOk, Openable, PcmFormat.FrameBytes, EndedIn, ClosedIn;
    assert |s.streams.Keys| == |s.streams|;
    var u := f.utterance;
    if !s.closed {
      assert u in s.streams <==> u in s.streams.Keys;
      if LastTaken(fs, u) && u !in s.terminal {
        var g :| g in fs && g.utterance == u && g.endOfUtterance;
        assert u in OpenIn(fs, es);
      }
    }
  }

  lemma TerminateRaises(s: Session, stream: Uuid, u: Uuid, outcome: Outcome)
    requires u !in s.terminal
    ensures Terminate(s, stream, u, outcome).answer.Raised? <==> |s.terminal| >= 4096
  {
    hide Without, MsOf;
  }

  /** Over every run, a frame is refused exactly when what was taken and returned before makes it
      unwelcome, or when it would have to end its utterance and 4096 have ended already. */
  lemma FrameRefusedIff(inj: Injection, request: OpenRequest, ops: seq<Op>, f: Frame, now: nat)
    requires Openable(request) && !T.Run(inj, request, ops).raised
    ensures var (t, fs) := (T.Run(inj, request, ops), Taken(inj, request, ops));
            var answer := EnqueueFrame(t.session, f, now).answer;
            && (answer.Raised? <==>
                  || Unwelcome(request, fs, t.events, f)
                  || (&& |EndedIn(t.events)| >= 4096
                      && (now - f.captureNs > OldestNs(request.mode)
                          || Ms(t.session.input) + f.format.frameDurationMs > 800)))
            && (answer == Raised(DuplicateFrameSequence) ==> fs != [] && f.sequence == fs[|fs| - 1].sequence)
            && (answer == Raised(StaleFrameSequence) ==> fs != [] && f.sequence < fs[|fs| - 1].sequence)
  {
    var (t, fs) := (T.Run(inj, request, ops), Taken(inj, request, ops));
    RunMeant(inj, request, ops);
    hide T.Run, Taken;
    FrameRefused(t.session, request, fs, t.events, f);
    WaitingMs(t.session);
    T.NotTooOld(request.mode, f.captureNs, now);
    RefusedCodes(t.session, f, now);
    hide Inv, Expired, OldestNs, Unwelcome, Terminate, FrameError, EndedIn, OpenIn, ClosedIn, LastTaken;
    var s1 := Admitted(t.session, f);
    if f.utterance !in t.session.terminal {
      TerminateRaises(s1, f.stream, f.utterance, Dropped);
      TerminateRaises(s1.(eventSequence := s1.eventSequence + 1), f.stream, f.utterance, Dropped);
    } else {
      EndedIsRefused(t.session, f);
    }
  }

  lemma EndedIsRefused(s: Session, f: Frame)
    requires f.utterance in s.terminal
    ensures FrameError(s, f).Some?
  {}

  lemma RefusedCodes(s: Session, f: Frame, now: nat)
    ensures EnqueueFrame(s, f, now).answer == Raised(DuplicateFrameSequence) ==>
              s.lastFrameSequence == Some(f.sequence)
    ensures EnqueueFrame(s, f, now).answer == Raised(StaleFrameSequence) ==>
              s.lastFrameSequence.Some? && f.sequence < s.lastFrameSequence.value
  {
    hide PcmFormat.FrameBytes, Expired, Without, MsOf;
  }

  /** A cancellation is refused exactly when the utterance is not open, the direction is another,
      the session is closed, or 4096 utterances have ended; otherwise exactly the cancelled end
      is returned and nothing of the utterance is left. */
  lemma CancelRefusedIff(inj: Injection, request: OpenRequest, ops: seq<Op>, d: Direction, u: Uuid)
    requires Openable(request) && !T.Run(inj, request, ops).raised
    ensures var (t, fs) := (T.Run(inj, request, ops), Taken(inj, request, ops));
            var r := CancelUtterance(t.session, d, u);
            && (r.answer.Raised? <==>
                  || ClosedIn(t.events) || d != request.direction || u !in OpenIn(fs, t.events)
                  || |EndedIn(t.events)| >= 4096)
            && (r.answer.Events? ==> && u in t.session.streams && Gone(t.session, r.session, u)
                                     && r.answer.events == [UtteranceFinal(Stamp(t.session, 1), t.session.streams[u], u,
                                                              Lookup(t.session.lastAudio, u), Cancelled)])
  {
    var (t, fs) := (T.Run(inj, request, ops), Taken(inj, request, ops));
    RunMeant(inj, request, ops);
    hide T.Run, Taken;
    var (s, r) := (t.session, CancelUtterance(t.session, d, u));
    PurgedTerminal(s, u);
    OpenApart(s);
    if u !in s.terminal && u in s.streams {
      TerminateRaises(PurgeQueues(s, u), s.streams[u], u, Cancelled);
    }
    if r.answer.Events? {
      CancelKept(s, d, u);
    }
    hide Inv, Terminate, PurgeQueues, EndedIn, OpenIn, ClosedIn, LastTaken, Gone, Kept;
    assert u in s.streams <==> u in s.streams.Keys;
  }

  lemma PurgedTerminal(s: Session, u: Uuid)
    ensures PurgeQueues(s, u).terminal == s.terminal
  {
    hide Without, MsOf;
  }

  lemma OpenApart(s: Session)
    requires Inv(s)
    ensures forall u <- s.streams :: u !in s.terminal
  {
    hide InputOk, OutputOk, NumbersOk, Openable, PcmFormat.FrameBytes;
  }

  // ---- Debug text ----

  /** The last setting of debug text. */
  function DebugAfter(request: OpenRequest, ops: seq<Op>): bool {
    if ops == [] then request.debugText
    else if ops[|ops| - 1].SetDebug? then ops[|ops| - 1].enabled
    else DebugAfter(request, ops[..|ops| - 1])
  }

  /** Over every run, text about processed frames is given exactly when it was last asked for. */
  lemma {:induction false} DebugIs(inj: Injection, request: OpenRequest, ops: seq<Op>)
    requires Openable(request) && !T.Run(inj, request, ops).raised
    ensures T.Run(inj, request, ops).session.debugText == DebugAfter(request, ops)
  {
    if ops != [] {
      var (before, op) := (ops[..|ops| - 1], ops[|ops| - 1]);
      DebugIs(inj, request, before);
      var s := T.Run(inj, request, before).session;
      T.RequestStays(inj, s, op);
      DebugCalls(inj, s, op);
      hide Apply;
    }
  }

  lemma DebugCalls(inj: Injection, s: Session, op: Op)
    requires Inv(s) && Apply(inj, s, op).answer.Events?
    ensures op.SetDebug? ==> Apply(inj, s, op).session.debugText == op.enabled
    ensures op.Enqueue? ==> Apply(inj, s, op).session.debugText == s.debugText
  {
    if op.Enqueue? {
      T.EnqueueSettles(s, op.frame, op.now);
    }
    hide Inv, EnqueueFrame, ProcessNext, DrainFrom, CancelUtterance;
  }

  /** Once closed, a session refuses every call. */
  lemma ClosedRefuses(inj: Injection, request: OpenRequest, ops: seq<Op>, op: Op)
    requires Openable(request) && !T.Run(inj, request, ops).raised && ClosedIn(T.Run(inj, request, ops).events)
    ensures Apply(inj, T.Run(inj, request, ops).session, op).answer.Raised?
  {
    RunMeant(inj, request, ops);
    var s := T.Run(inj, request, ops).session;
    if Apply(inj, s, op).answer.Events? {
      CallKept(inj, s, op);
    }
  }
}
