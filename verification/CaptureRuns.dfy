/** The segmenter's output fed to a direction session, with provider events and polls in
    between: no capture event is ever out of place, and while frames keep coming the end of
    an utterance is never late. */
module CaptureRuns {
  import opened Wire
  import W = WatchdogModel
  import V = ValidatorModel
  import C = CoordinatorModel
  import K = Coupling
  import opened DirectionSessionModel
  import opened SegmenterModel

  const FRAME_NS: nat := 20 * NS_PER_MS
  /** As many frames as fit in the time allowed for collecting one utterance. */
  const COLLECTING_FRAMES: nat := 600

  datatype Fed = Fed(session: DirectionSession, error: Option<SessionError>)

  /** Capture events handled one after the other, up to the first that is refused. */
  function Feed(s: DirectionSession, events: seq<CaptureEvent>): Fed
    decreases events
  {
    if events == [] then Fed(s, None)
    else
      var r := HandleCapture(s, events[0]);
      if r.result.Failure? then Fed(r.session, Some(r.result.error)) else Feed(r.session, events[1..])
  }

  datatype World = World(ear: Segmenter, session: DirectionSession, newest: W.Ns)

  datatype Op =
    | Hearing(frame: PcmFrame, voice: bool, newId: Uuid)
    | Receiving(event: Event, at: W.Ns)
    | Polling(at: W.Ns)

  datatype Next = Next(world: World, error: Option<SessionError>)

  /** Provider errors and refused polls are the session's own affair; only refusals of
      captured speech are reported here. */
  function Step(w: World, op: Op): Next {
    match op
    case Hearing(frame, voice, newId) =>
      var h := Hear(w.ear, frame, voice, newId);
      var fed := Feed(w.session, h.events);
      Next(World(h.segmenter, fed.session, frame.captureNs), fed.error)
    case Receiving(e, at) => Next(w.(session := HandleProviderEvent(w.session, e, at).session), None)
    case Polling(at) => Next(w.(session := Poll(w.session, at).session), None)
  }

  /** The session has been opened and has neither ended nor been escalated. */
  predicate Lively(s: DirectionSession) {
    s.coordinator.validator.isOpen && Standing(s)
  }

  predicate Standing(s: DirectionSession) {
    s.coordinator.watchdog.phase.Active? && !s.coordinator.validator.closed
  }

  /** There is room for an utterance with this identifier, never used before. */
  predicate RoomFor(s: DirectionSession, u: Uuid) {
    && u !in s.active && u !in s.coordinator.watchdog.utterances
    && u !in s.coordinator.validator.terminal && u !in s.coordinator.validator.capture
    && |s.coordinator.validator.capture| < MAX_ACTIVE_UTTERANCES
  }

  /** What is asked of the surroundings: speech is captured on a lively session with room;
      amid speech each frame is captured at most one frame length after the frame before, and
      no poll looks past the newest frame. */
  predicate Fit(w: World, op: Op) {
    match op
    case Hearing(frame, _, newId) =>
      && Lively(w.session) && RoomFor(w.session, newId)
      && (w.ear.utterance.Some? || w.ear.pending != [] ==> frame.captureNs <= w.newest + FRAME_NS)
    case Receiving(_, _) => true
    case Polling(at) => w.ear.utterance.Some? ==> at <= w.newest
  }

  // ----- the segmenter and the session agree -----

  /** The session collects exactly the utterance the segmenter is in. */
  ghost predicate InStep(ear: Segmenter, s: DirectionSession) {
    && ear.stream == s.contract.stream
    && (Standing(s) ==> s.collecting == ear.utterance)
    && (Standing(s) && ear.utterance.Some? ==> IsCollecting(s, ear.utterance.value))
  }

  predicate IsCollecting(s: DirectionSession, u: Uuid) {
    && u in s.coordinator.watchdog.utterances
    && s.coordinator.watchdog.utterances[u].stream == s.contract.stream
    && s.coordinator.watchdog.utterances[u].phase.CollectingInput?
    && u in s.coordinator.validator.complete
  }

  ghost predicate EarOk(ear: Segmenter) {
    && Sensible(ear.limits)
    && |ear.pending| < ear.limits.confirmation
    && (ear.rearm.Some? ==> ear.pending == [])
    && (ear.utterance.Some? ==> ear.rearm.None? && ear.pending == []
                                && ear.limits.confirmation <= ear.activeFrames < ear.limits.maxFrames)
  }

  /** Time enough remains for as many frames as the utterance may still have. */
  ghost predicate InTime(w: World) {
    && (w.ear.pending != [] ==> w.newest <= w.ear.pending[0].captureNs + (|w.ear.pending| - 1) * FRAME_NS)
    && (Standing(w.session) && w.ear.utterance.Some? && IsCollecting(w.session, w.ear.utterance.value) ==>
          var deadline := w.session.coordinator.watchdog.utterances[w.ear.utterance.value].phase.deadline;
          deadline == W.U64_MAX || w.newest + (COLLECTING_FRAMES - w.ear.activeFrames) * FRAME_NS <= deadline)
  }

  // ----- feeding -----

  lemma {:induction false} FeedThen(s: DirectionSession, a: seq<CaptureEvent>, b: seq<CaptureEvent>)
    requires Feed(s, a).error.None?
    ensures Feed(s, a + b) == Feed(Feed(s, a).session, b)
    decreases a
  {
    hide HandleCapture;
    if a == [] {
      assert a + b == b;
    } else {
      assert (a + b)[1..] == a[1..] + b;
      FeedThen(HandleCapture(s, a[0]).session, a[1..], b);
    }
  }

  /** Frames of the utterance being collected are all taken, and only move the numbering on. */
  lemma {:induction false} FeedCarried(s: DirectionSession, u: Uuid, frames: seq<PcmFrame>)
    requires s.collecting == Some(u)
    ensures var r := Feed(s, Carried(s.contract.stream, u, frames));
            r.error.None? && r.session == s.(nextInput := r.session.nextInput)
    decreases frames
  {
    var events := Carried(s.contract.stream, u, frames);
    if frames != [] {
      var s1 := HandleCapture(s, events[0]).session;
      assert events[1..] == Carried(s.contract.stream, u, frames[1..]);
      FeedCarried(s1, u, frames[1..]);
    }
  }

  lemma FeedOne(s: DirectionSession, e: CaptureEvent)
    ensures Feed(s, [e]) ==
            var r := HandleCapture(s, e); Fed(r.session, if r.result.Failure? then Some(r.result.error) else None)
  {
    assert [e][1..] == [];
    assert Feed(HandleCapture(s, e).session, []).error == None;
  }

  /** A lively session with room takes the beginning of an utterance. */
  lemma FeedOpening(s: DirectionSession, u: Uuid, at: W.Ns, frames: seq<PcmFrame>)
    requires Lively(s) && RoomFor(s, u) && s.collecting.None?
    ensures var r := Feed(s, [SpeechStarted(s.contract.stream, u, at)] + Carried(s.contract.stream, u, frames));
            && r.error.None? && r.session.collecting == Some(u) && r.session.contract == s.contract
            && IsCollecting(r.session, u) && Lively(r.session)
            && r.session.coordinator.watchdog.utterances[u].phase.deadline == W.SaturatingAdd(at, W.COLLECTING_INPUT_NS)
  {
    var started := SpeechStarted(s.contract.stream, u, at);
    FeedOne(s, started);
    var s1 := Feed(s, [started]).session;
    FeedThen(s, [started], Carried(s.contract.stream, u, frames));
    FeedCarried(s1, u, frames);
  }

  /** The last frames of an utterance are taken exactly when its end is in time; the only
      refusal is that it is not. */
  lemma FeedEnding(s: DirectionSession, u: Uuid, frames: seq<PcmFrame>, last: PcmFrame)
    requires Lively(s) && s.collecting == Some(u) && IsCollecting(s, u)
    ensures var r := Feed(s, Carried(s.contract.stream, u, frames) + [CaptureFrame(s.contract.stream, u, last, true)]);
            && r.error == (if last.captureNs <= s.coordinator.watchdog.utterances[u].phase.deadline then None
                           else Some(CoordinatorFailed(C.Watchdog(W.DeadlineExpired))))
            && (r.error.None? ==> r.session.collecting.None? && r.session.contract == s.contract && Lively(r.session))
  {
    FeedCarried(s, u, frames);
    var s1 := Feed(s, Carried(s.contract.stream, u, frames)).session;
    var end := CaptureFrame(s.contract.stream, u, last, true);
    FeedThen(s, Carried(s.contract.stream, u, frames), [end]);
    FeedOne(s1, end);
  }

  // ----- one step -----

  /** A frame heard on a lively session with room is taken, unless it ends its utterance too
      late; a refusal is never for a capture event out of place. */
  lemma HearingInStep(w: World, frame: PcmFrame, voice: bool, newId: Uuid)
    requires EarOk(w.ear) && InStep(w.ear, w.session) && Lively(w.session) && RoomFor(w.session, newId)
    ensures var n := Step(w, Hearing(frame, voice, newId));
            && EarOk(n.world.ear)
            && (n.error.None? ==> InStep(n.world.ear, n.world.session))
            && (n.error.Some? ==> && n.error.value == CoordinatorFailed(C.Watchdog(W.DeadlineExpired))
                                  && w.ear.utterance.Some? && IsCollecting(w.session, w.ear.utterance.value)
                                  && var u := w.ear.utterance.value;
                                     frame.captureNs > w.session.coordinator.watchdog.utterances[u].phase.deadline)
  {
    hide HandleCapture;
    var h := Hear(w.ear, frame, voice, newId);
    if h.events != [] {
      if w.ear.utterance.None? {
        var pending := w.ear.pending + [frame];
        FeedOpening(w.session, newId, pending[0].captureNs, pending);
      } else {
        var (u, held) := (w.ear.utterance.value, w.ear.trailing + [frame]);
        if h.segmenter.utterance.None? {
          FeedEnding(w.session, u, held[..|held| - 1], frame);
        } else {
          FeedCarried(w.session, u, held);
        }
      }
    }
  }

  // ----- provider events leave the utterance being collected alone -----

  predicate Open(c: C.Coordinator) {
    c.watchdog.phase.Active? && !c.validator.closed
  }

  predicate Collects(c: C.Coordinator, u: Uuid) {
    && u in c.watchdog.utterances && c.watchdog.utterances[u].phase.CollectingInput?
    && u in c.validator.complete
  }

  /** If the stream is still open it was open before, and an utterance being collected still is. */
  ghost predicate LeavesAlone(c: C.Coordinator, c': C.Coordinator, u: Uuid) {
    Open(c') ==> Open(c) && (Collects(c, u) ==>
      Collects(c', u) && c'.watchdog.utterances[u] == c.watchdog.utterances[u])
  }

  lemma VerdictLeavesAlone(c: C.Coordinator, e: Event, now: W.Ns, u: Uuid)
    requires !(e.UtteranceFinal? && e.utterance == u && C.Verdict(c, e, now).error.None?)
    ensures LeavesAlone(c, C.Verdict(c, e, now).coordinator, u)
    ensures e.SessionClosed? && C.Verdict(c, e, now).error.None? ==> !Open(C.Verdict(c, e, now).coordinator)
  {
    hide V.Validate;
    K.ValidateBooked(c.validator, e, now);
    K.ClosedSaysSo(c.validator, e, now);
    assert u in c.validator.complete <==> u in c.validator.complete.Keys;
  }

  lemma EventLeavesAlone(c: C.Coordinator, e: Event, now: W.Ns, u: Uuid)
    ensures LeavesAlone(c, C.ValidateEvent(c, e, now).coordinator, u)
    ensures C.ValidateEvent(c, e, now).error.None? && e.SessionClosed? ==> !Open(C.ValidateEvent(c, e, now).coordinator)
  {
    hide C.Verdict, LeavesAlone;
    SameLeavesAlone(c, u);
    if !(e.UtteranceFinal? && e.utterance == u && C.Verdict(c, e, now).error.None?) {
      VerdictLeavesAlone(c, e, now, u);
    }
    match e
    case AudioDelta(_, _, _, _, _, _, _) => AudioLeavesAlone(c, e, now, u);
    case UtteranceFinal(_, _, _, _, _) =>
      if c.watchdog.phase.Active? { FinalLeavesAlone(c, e, now, u); }
    case SessionClosed(_) => ClosedLeavesAlone(c, e, now, u);
    case _ =>
  }

  lemma SameLeavesAlone(c: C.Coordinator, u: Uuid)
    ensures LeavesAlone(c, c, u)
  {}

  lemma AudioLeavesAlone(c: C.Coordinator, e: Event, now: W.Ns, u: Uuid)
    requires e.AudioDelta?
    ensures LeavesAlone(c, C.ReceiveAudio(c, e, now).coordinator, u)
  {
    VerdictLeavesAlone(c, e, now, u);
    hide V.Validate;
  }

  lemma FinalLeavesAlone(c: C.Coordinator, e: Event, now: W.Ns, u: Uuid)
    requires e.UtteranceFinal? && c.watchdog.phase.Active?
    ensures LeavesAlone(c, C.ReceiveFinal(c, e, now).coordinator, u)
  {
    hide V.Validate;
    if e.utterance == u && C.Verdict(c, e, now).error.None? {
      K.ClosedSaysSo(c.validator, e, now);
    } else {
      VerdictLeavesAlone(c, e, now, u);
    }
  }

  lemma ClosedLeavesAlone(c: C.Coordinator, e: Event, now: W.Ns, u: Uuid)
    requires e.SessionClosed?
    ensures LeavesAlone(c, C.ReceiveClosed(c, e, now).coordinator, u)
    ensures C.ReceiveClosed(c, e, now).error.None? ==> !Open(C.ReceiveClosed(c, e, now).coordinator)
  {
    VerdictLeavesAlone(c, e, now, u);
    hide C.Verdict;
  }

  lemma ReceivingKeepsStep(w: World, e: Event, now: W.Ns)
    requires InStep(w.ear, w.session)
    ensures InStep(w.ear, HandleProviderEvent(w.session, e, now).session)
    ensures InTime(w) ==> InTime(w.(session := HandleProviderEvent(w.session, e, now).session))
  {
    hide C.ValidateEvent;
    var (s, s') := (w.session, HandleProviderEvent(w.session, e, now).session);
    var u := if w.ear.utterance.Some? then w.ear.utterance.value else w.ear.stream;
    EventLeavesAlone(s.coordinator, e, now, u);
  }

  /** A poll no later than the deadline of the utterance being collected leaves it alone. */
  lemma PollingKeepsStep(w: World, now: W.Ns)
    requires EarOk(w.ear) && InStep(w.ear, w.session) && InTime(w)
    requires Fit(w, Polling(now)) && w.ear.limits.maxFrames <= COLLECTING_FRAMES
    ensures InStep(w.ear, Poll(w.session, now).session)
    ensures InTime(w.(session := Poll(w.session, now).session))
  {
    var (s, s') := (w.session, Poll(w.session, now).session);
    if Standing(s) && w.ear.utterance.Some? {
      var u := w.ear.utterance.value;
      assert !W.IsOverdue(s.coordinator.watchdog.utterances[u], now);
    }
  }

  /** A frame heard in good time is always taken. */
  lemma HearingInTime(w: World, frame: PcmFrame, voice: bool, newId: Uuid)
    requires EarOk(w.ear) && InStep(w.ear, w.session) && InTime(w) && w.ear.limits.maxFrames <= COLLECTING_FRAMES
    requires Fit(w, Hearing(frame, voice, newId))
    ensures Step(w, Hearing(frame, voice, newId)).error.None?
    ensures InTime(Step(w, Hearing(frame, voice, newId)).world)
  {
    hide HandleCapture, RoomFor, Lively;
    FitRoom(w, Hearing(frame, voice, newId));
    HearingInStep(w, frame, voice, newId);
    if w.ear.utterance.None? {
      IdleInTime(w, frame, voice, newId);
    } else {
      SpeakingInTime(w, frame, voice, newId);
    }
  }

  lemma IdleInTime(w: World, frame: PcmFrame, voice: bool, newId: Uuid)
    requires EarOk(w.ear) && InStep(w.ear, w.session) && InTime(w) && w.ear.utterance.None?
    requires Fit(w, Hearing(frame, voice, newId))
    ensures InTime(Step(w, Hearing(frame, voice, newId)).world)
  {
    hide HandleCapture, RoomFor;
    var h := Hear(w.ear, frame, voice, newId);
    var pending := w.ear.pending + [frame];
    assert frame.captureNs <= pending[0].captureNs + (|pending| - 1) * FRAME_NS;
    if h.events != [] {
      FeedOpening(w.session, newId, pending[0].captureNs, pending);
    }
  }

  lemma SpeakingInTime(w: World, frame: PcmFrame, voice: bool, newId: Uuid)
    requires EarOk(w.ear) && InStep(w.ear, w.session) && InTime(w) && w.ear.utterance.Some?
    requires Fit(w, Hearing(frame, voice, newId)) && w.ear.limits.maxFrames <= COLLECTING_FRAMES
    ensures var u := w.ear.utterance.value;
            IsCollecting(w.session, u) && frame.captureNs <= w.session.coordinator.watchdog.utterances[u].phase.deadline
    ensures InTime(Step(w, Hearing(frame, voice, newId)).world)
  {
    hide HandleCapture, RoomFor;
    var h := Hear(w.ear, frame, voice, newId);
    if h.events != [] && h.segmenter.utterance.Some? {
      FeedCarried(w.session, w.ear.utterance.value, w.ear.trailing + [frame]);
    }
  }

  // ----- every run -----

  function Beginning(contract: Contract, asked: Limits): World {
    World(Quiet(contract.stream, asked), Fresh(contract), 0)
  }

  /** A run stops at the first refusal. */
  function Run(contract: Contract, asked: Limits, ops: seq<Op>): Next {
    if ops == [] then Next(Beginning(contract, asked), None)
    else
      var before := Run(contract, asked, ops[..|ops| - 1]);
      if before.error.Some? then before else Step(before.world, ops[|ops| - 1])
  }

  ghost predicate AllFit(contract: Contract, asked: Limits, ops: seq<Op>) {
    forall i :: 0 <= i < |ops| ==> Fit(Run(contract, asked, ops[..i]).world, ops[i])
  }

  lemma HearingKeepsLimits(w: World, op: Op)
    ensures Step(w, op).world.ear.limits == w.ear.limits
  {}

  /** On an opened, active session with fresh identifiers and spare capacity, with at most as
      many frames to an utterance as the collecting deadline has room for, the segmenter's
      output is never refused: no event is out of place and no end of utterance is late,
      whatever the provider sends and whenever deadlines are polled in between. */
  lemma {:induction false} SpeechAlwaysTaken(contract: Contract, asked: Limits, ops: seq<Op>)
    requires asked.maxFrames <= COLLECTING_FRAMES && AllFit(contract, asked, ops)
    ensures var r := Run(contract, asked, ops);
            && r.error.None? && r.world.ear.limits == Clamped(asked)
            && EarOk(r.world.ear) && InStep(r.world.ear, r.world.session) && InTime(r.world)
  {
    if ops != [] {
      var (before, op) := (ops[..|ops| - 1], ops[|ops| - 1]);
      assert forall i :: 0 <= i < |before| ==> before[..i] == ops[..i];
      SpeechAlwaysTaken(contract, asked, before);
      var w := Run(contract, asked, before).world;
      assert Fit(w, op);
      StepTaken(w, op);
    }
  }

  lemma StepTaken(w: World, op: Op)
    requires EarOk(w.ear) && InStep(w.ear, w.session) && InTime(w) && w.ear.limits.maxFrames <= COLLECTING_FRAMES
    requires Fit(w, op)
    ensures var n := Step(w, op);
            && n.error.None? && n.world.ear.limits == w.ear.limits
            && EarOk(n.world.ear) && InStep(n.world.ear, n.world.session) && InTime(n.world)
  {
    hide EarOk, InStep, InTime, Fit, HandleProviderEvent, Poll;
    HearingKeepsLimits(w, op);
    match op
    case Hearing(frame, voice, newId) =>
      FitRoom(w, op);
      HearingInStep(w, frame, voice, newId);
      HearingInTime(w, frame, voice, newId);
    case Receiving(e, at) => ReceivingKeepsStep(w, e, at);
    case Polling(at) => PollingKeepsStep(w, at);
  }

  lemma FitRoom(w: World, op: Op)
    requires Fit(w, op) && op.Hearing?
    ensures Lively(w.session) && RoomFor(w.session, op.newId)
  {}

  /** The weaker demand when deadlines are not polled: nothing is asked of the clock. */
  predicate FitUntimed(w: World, op: Op) {
    match op
    case Hearing(frame, _, newId) => Lively(w.session) && RoomFor(w.session, newId)
    case Receiving(_, _) => true
    case Polling(_) => false
  }

  /** With any limits and any clock, as long as no deadline is polled, a captured event is
      never out of place: the only refusal there can be is of an end of utterance that came late. */
  lemma {:induction false} NeverOutOfPlace(contract: Contract, asked: Limits, ops: seq<Op>)
    requires forall i :: 0 <= i < |ops| ==>
               FitUntimed(Run(contract, asked, ops[..i]).world, ops[i])
               || Run(contract, asked, ops[..i]).error.Some?
    ensures var r := Run(contract, asked, ops);
            && (r.error.Some? ==> r.error.value == CoordinatorFailed(C.Watchdog(W.DeadlineExpired)))
            && (r.error.None? ==> EarOk(r.world.ear) && InStep(r.world.ear, r.world.session))
  {
    if ops != [] {
      var (before, op) := (ops[..|ops| - 1], ops[|ops| - 1]);
      assert forall i :: 0 <= i < |before| ==> before[..i] == ops[..i];
      NeverOutOfPlace(contract, asked, before);
      var r := Run(contract, asked, before);
      if r.error.None? {
        hide EarOk, InStep, HandleProviderEvent;
        match op
        case Hearing(frame, voice, newId) => HearingInStep(r.world, frame, voice, newId);
        case Receiving(e, at) => ReceivingKeepsStep(r.world, e, at);
      }
    }
  }
}
