/** A provider session as the sidecar keeps it: queues, sets and dictionaries changed in
    place, call by call. Each method is tied to what the call does as a function. */
module ProviderEngine {
  import opened Wire
  import opened EngineModel
  import opened EngineRuns
  import opened EngineTraces

  /** Reverse the samples of s16le audio; incomplete samples are refused. */
  method MockTransformPcm(pcm: Pcm) returns (r: Option<Pcm>)
    ensures r.None? <==> |pcm| % 2 != 0
    ensures r.Some? ==> r.value == ReverseSamples(pcm)
  {
    if |pcm| % 2 != 0 {
      return None;
    }
    var (out, offset) := ([], |pcm|);
    while offset > 0
      invariant 0 <= offset <= |pcm| && offset % 2 == 0
      invariant out == ReverseSamples(pcm[offset..])
    {
      offset := offset - 2;
      assert pcm[offset..][2..] == pcm[offset + 2..] && pcm[offset..][..2] == pcm[offset..offset + 2];
      LastSampleFirst(pcm, offset);
      out := out + pcm[offset..offset + 2];
    }
    assert pcm[0..] == pcm;
    r := Some(out);
  }

  lemma LastSampleFirst(pcm: Pcm, offset: nat)
    requires offset + 2 <= |pcm| && |pcm| % 2 == 0 && offset % 2 == 0
    ensures ReverseSamples(pcm[offset..]) == ReverseSamples(pcm[offset + 2..]) + pcm[offset..offset + 2]
  {
    assert pcm[offset..][2..] == pcm[offset + 2..] && pcm[offset..][..2] == pcm[offset..offset + 2];
  }

  lemma {:induction false} ReverseAppend(pcm: Pcm, sample: Pcm)
    requires |pcm| % 2 == 0 && |sample| == 2
    ensures ReverseSamples(pcm + sample) == sample + ReverseSamples(pcm)
  {
    if pcm == [] {
      assert pcm + sample == sample && sample[..2] == sample && sample[2..] == [];
    } else {
      assert (pcm + sample)[2..] == pcm[2..] + sample && (pcm + sample)[..2] == pcm[..2];
      ReverseAppend(pcm[2..], sample);
    }
  }

  /** Transforming twice gives the audio back. */
  lemma {:induction false} ReverseTwice(pcm: Pcm)
    requires |pcm| % 2 == 0
    ensures ReverseSamples(ReverseSamples(pcm)) == pcm
  {
    if pcm != [] {
      ReverseAppend(ReverseSamples(pcm[2..]), pcm[..2]);
      ReverseTwice(pcm[2..]);
      assert pcm[..2] + pcm[2..] == pcm;
    }
  }

  /** Each sample keeps its two bytes in order and lands at the mirrored place. */
  lemma {:induction false} SampleMirrored(pcm: Pcm, k: nat)
    requires |pcm| % 2 == 0 && 2 * k + 2 <= |pcm|
    ensures var r := ReverseSamples(pcm);
            var at := |pcm| - 2 * k - 2;
            r[at..at + 2] == pcm[2 * k..2 * k + 2]
  {
    var rest := ReverseSamples(pcm[2..]);
    assert ReverseSamples(pcm) == rest + pcm[..2];
    if k > 0 {
      SampleMirrored(pcm[2..], k - 1);
      var at := |pcm| - 2 * k - 2;
      assert pcm[2..][2 * (k - 1)..2 * (k - 1) + 2] == pcm[2 * k..2 * k + 2];
      assert (rest + pcm[..2])[at..at + 2] == rest[at..at + 2];
    } else {
      assert pcm[0..2] == pcm[..2];
      assert (rest + pcm[..2])[|rest|..|rest| + 2] == pcm[..2];
    }
  }

  lemma PurgeIs(s: Session, u: Uuid)
    ensures var s' := PurgeQueues(s, u);
            s' == s.(input := s'.input, inputMs := s'.inputMs, output := s'.output, outputMs := s'.outputMs)
  {
    hide Without, MsOf;
  }

  lemma ForgetKeeps(s: Session, u: Uuid)
    ensures EngineModel.Forget(s, u).terminal == s.terminal && EngineModel.Forget(s, u).eventSequence == s.eventSequence
  {
    hide Without, MsOf;
  }

  /** A reply with more said before it. */
  function Following(said: seq<Event>, r: Reply): Reply {
    match r.answer
    case Raised(_) => r
    case Events(more) => r.(answer := Events(said + more))
  }

  lemma FollowingNothing(r: Reply)
    ensures Following([], r) == r
  {
    if r.answer.Events? { assert [] + r.answer.events == r.answer.events; }
  }

  /** One turn of the drain loop, in terms of what is left to drain. */
  lemma DrainTurn(s: Session, said: seq<Event>, now: nat)
    requires Inv(s) && s.output != []
    ensures s.output[0].QueuedOutput?
    ensures var r := DrainOne(EngineModel.PopOutput(s), s.output[0], now);
            && Inv(r.session) && |r.session.output| < |s.output|
            && (r.answer.Raised? ==> Following(said, DrainFrom(s, now)) == r)
            && (r.answer.Events? ==>
                  Following(said, DrainFrom(s, now)) ==
                  Following(said + r.answer.events, DrainFrom(r.session, now)))
  {
    PopOutputKeepsInv(s);
    DrainOneKeepsInv(s, now);
    hide InputOk, IdsOk, NumbersOk, Openable, DrainOne, PcmFormat.FrameBytes;
    var r := DrainOne(EngineModel.PopOutput(s), s.output[0], now);
    if r.answer.Events? {
      var rest := DrainFrom(r.session, now);
      if rest.answer.Events? {
        assert said + (r.answer.events + rest.answer.events) == (said + r.answer.events) + rest.answer.events;
      }
    }
  }

  /** Calls made one after the other, up to the first that raises. */
  ghost function Calls(inj: Injection, s: Session, ops: seq<Op>): (r: Reply)
    requires Inv(s)
    ensures Inv(r.session)
  {
    if ops == [] then Reply(s, Events([]))
    else
      var r := Calls(inj, s, ops[..|ops| - 1]);
      if r.answer.Raised? then r
      else
        ApplyKeepsInv(inj, r.session, ops[|ops| - 1]);
        Following(r.answer.events, Apply(inj, r.session, ops[|ops| - 1]))
  }

  lemma CallsMore(inj: Injection, s: Session, ops: seq<Op>, op: Op)
    requires Inv(s)
    ensures var r := Calls(inj, s, ops);
            Calls(inj, s, ops + [op]) ==
              if r.answer.Raised? then r else Following(r.answer.events, Apply(inj, r.session, op))
  {
    hide Inv, Apply;
    assert (ops + [op])[..|ops|] == ops;
  }

  /** Draining leaves the session open, the input no longer, and no output unless it raises. */
  lemma DrainedIsOpen(s: Session, now: nat)
    requires Inv(s) && !s.closed
    ensures var r := DrainFrom(s, now);
            !r.session.closed && |r.session.input| <= |s.input| && (r.answer.Events? ==> r.session.output == [])
    decreases |s.output|
  {
    if s.output != [] {
      DrainOneKeepsInv(s, now);
      PopOutputKeepsInv(s);
      DrainOneIsOpen(s, now);
      hide InputOk, IdsOk, NumbersOk, Openable, DrainOne, PcmFormat.FrameBytes;
      var r := DrainOne(EngineModel.PopOutput(s), s.output[0], now);
      if r.answer.Events? {
        DrainedIsOpen(r.session, now);
      }
    }
  }

  lemma DrainOneIsOpen(s: Session, now: nat)
    requires s.output != [] && s.output[0].QueuedOutput?
    ensures var r := DrainOne(EngineModel.PopOutput(s), s.output[0], now);
            r.session.closed == s.closed && |r.session.input| <= |s.input|
  {
    hide Without, MsOf;
  }

  lemma StaysOpen(inj: Injection, s: Session, now: nat)
    requires Inv(s) && !s.closed
    ensures !EngineModel.ProcessNext(inj, s, now).session.closed
  {
    hide ReverseSamples, Without, MsOf, PcmFormat.FrameBytes, OutputOk, IdsOk, NumbersOk, Openable;
  }

  class ProviderSession {
    const request: OpenRequest
    const injection: Injection
    var debugText: bool
    var eventSequence: nat
    var lastFrameSequence: Option<nat>
    var streamId: Option<Uuid>
    var input: seq<Queued>
    var output: seq<Queued>
    var inputMs: int
    var outputMs: int
    var processed: nat
    var terminal: set<Uuid>
    var ended: set<Uuid>
    var streams: map<Uuid, Uuid>
    var nextAudio: map<Uuid, nat>
    var lastAudio: map<Uuid, nat>
    var closed: bool

    function View(): Session
      reads this
    {
      Session(request, debugText, eventSequence, lastFrameSequence, streamId, input, output, inputMs, outputMs,
              processed, terminal, ended, streams, nextAudio, lastAudio, closed)
    }

    ghost predicate Valid()
      reads this
    {
      Inv(View())
    }

    constructor (request: OpenRequest, injection: Injection)
      requires Openable(request)
      ensures Valid() && View() == Opened(request) && this.injection == injection
    {
      this.request := request;
      this.injection := injection;
      debugText := request.debugText;
      eventSequence, processed := 1, 0;
      lastFrameSequence, streamId := None, None;
      input, output, inputMs, outputMs := [], [], 0, 0;
      terminal, ended := {}, {};
      streams, nextAudio, lastAudio := map[], map[], map[];
      closed := false;
    }

    method NextEventSequence() returns (n: nat)
      modifies this`eventSequence
      ensures n == eventSequence == old(eventSequence) + 1
    {
      eventSequence := eventSequence + 1;
      n := eventSequence;
    }

    method RemoveInput(u: Uuid)
      modifies this`input, this`inputMs
      ensures input == Without(old(input), u) && inputMs == old(inputMs) - MsOf(old(input), u)
    {
      var retained: seq<Queued> := [];
      while input != []
        invariant retained + Without(input, u) == Without(old(input), u)
        invariant inputMs - MsOf(input, u) == old(inputMs) - MsOf(old(input), u)
        decreases |input|
      {
        var queued := input[0];
        assert retained + ([queued] + Without(input[1..], u)) == (retained + [queued]) + Without(input[1..], u);
        input := input[1..];
        if queued.frame.utterance == u {
          inputMs := inputMs - queued.frame.format.frameDurationMs;
        } else {
          retained := retained + [queued];
        }
      }
      input := retained;
    }

    method RemoveOutput(u: Uuid)
      modifies this`output, this`outputMs
      ensures output == Without(old(output), u) && outputMs == old(outputMs) - MsOf(old(output), u)
    {
      var retained: seq<Queued> := [];
      while output != []
        invariant retained + Without(output, u) == Without(old(output), u)
        invariant outputMs - MsOf(output, u) == old(outputMs) - MsOf(old(output), u)
        decreases |output|
      {
        var queued := output[0];
        assert retained + ([queued] + Without(output[1..], u)) == (retained + [queued]) + Without(output[1..], u);
        output := output[1..];
        if queued.frame.utterance == u {
          outputMs := outputMs - queued.frame.format.frameDurationMs;
        } else {
          retained := retained + [queued];
        }
      }
      output := retained;
    }

    method Purge(u: Uuid)
      modifies this`input, this`inputMs, this`output, this`outputMs
      ensures View() == PurgeQueues(old(View()), u)
    {
      hide Without, MsOf;
      RemoveInput(u);
      RemoveOutput(u);
    }

    method Forget(u: Uuid)
      modifies this
      ensures View() == EngineModel.Forget(old(View()), u)
    {
      hide PurgeQueues;
      Purge(u);
      PurgeIs(old(View()), u);
      ended := ended - {u};
      streams := streams - {u};
      nextAudio := nextAudio - {u};
      lastAudio := lastAudio - {u};
    }

    method Terminate(stream: Uuid, u: Uuid, outcome: Outcome) returns (answer: Answer)
      modifies this
      ensures Reply(View(), answer) == EngineModel.Terminate(old(View()), stream, u, outcome)
    {
      hide EngineModel.Forget;
      if u in terminal {
        return Raised(UtteranceTerminal);
      }
      if |terminal| >= MAX_TERMINAL_UTTERANCES {
        return Raised(TombstoneCapacity);
      }
      var finalAudio := Lookup(lastAudio, u);
      ForgetKeeps(View(), u);
      Forget(u);
      terminal := terminal + {u};
      var n := NextEventSequence();
      answer := Events([UtteranceFinal(Header(request.session, request.direction, n), stream, u, finalAudio, outcome)]);
    }

    method FailUtterance(f: Frame, code: ErrorCode) returns (answer: Answer)
      modifies this
      ensures Reply(View(), answer) == EngineModel.FailUtterance(old(View()), f, code)
    {
      hide EngineModel.Terminate;
      var n := NextEventSequence();
      var error := Error(Header(request.session, request.direction, n), Some(f.stream), Some(f.utterance), code);
      answer := Terminate(f.stream, f.utterance, Dropped);
      if answer.Events? {
        answer := Events([error] + answer.events);
      }
    }

    method Admit(f: Frame)
      modifies this`lastFrameSequence, this`streamId, this`streams
      ensures View() == Admitted(old(View()), f)
    {
      lastFrameSequence := Some(f.sequence);
      streamId := Some(f.stream);
      streams := streams[f.utterance := f.stream];
    }

    method EnqueueFrame(f: Frame, now: nat) returns (answer: Answer)
      requires Valid()
      modifies this
      ensures Reply(View(), answer) == EngineModel.EnqueueFrame(old(View()), f, now)
      ensures Valid()
    {
      EnqueueKeepsInv(View(), f, now);
      hide Inv, EngineModel.TakeFrame, FrameError;
      if f.session != request.session {
        return Raised(UnknownSession);
      }
      if closed {
        return Raised(SessionTerminal);
      }
      var error := FrameError(View(), f);
      if error.Some? {
        return Raised(error.value);
      }
      if f.utterance !in streams && |streams| >= MAX_ACTIVE_UTTERANCES {
        return Raised(ActiveUtteranceCapacity);
      }
      answer := TakeFrame(f, now);
    }

    method TakeFrame(f: Frame, now: nat) returns (answer: Answer)
      modifies this
      ensures Reply(View(), answer) == EngineModel.TakeFrame(old(View()), f, now)
    {
      hide EngineModel.Terminate, EngineModel.FailUtterance, Expired;
      Admit(f);
      if Expired(request.mode, f.captureNs, now) {
        answer := Terminate(f.stream, f.utterance, Dropped);
      } else if inputMs + f.format.frameDurationMs > INPUT_LIMIT_MS {
        answer := FailUtterance(f, QueueOverflow);
      } else {
        Queue(f, now);
        answer := Events([]);
      }
    }

    method Queue(f: Frame, now: nat)
      modifies this`input, this`inputMs, this`ended
      ensures View() == old(View()).(input := old(input) + [QueuedInput(f, now)],
              inputMs := old(inputMs) + f.format.frameDurationMs,
                                     ended := if f.endOfUtterance then old(ended) + {f.utterance} else old(ended))
    {
      input := input + [QueuedInput(f, now)];
      inputMs := inputMs + f.format.frameDurationMs;
      if f.endOfUtterance {
        ended := ended + {f.utterance};
      }
    }

    method PopInput() returns (f: Frame)
      requires input != []
      modifies this`input, this`inputMs
      ensures f == old(input[0].frame) && View() == EngineModel.PopInput(old(View()))
    {
      f := input[0].frame;
      input, inputMs := input[1..], inputMs - f.format.frameDurationMs;
    }

    method ProcessNext(now: nat) returns (answer: Answer)
      requires Valid()
      modifies this
      ensures old(Valid()) && Reply(View(), answer) == EngineModel.ProcessNext(injection, old(View()), now)
      ensures Valid()
    {
      ProcessKeepsInv(injection, View(), now);
      if closed {
        return Raised(SessionTerminal);
      }
      if input == [] {
        return Events([]);
      }
      PopInputKeepsInv(View());
      hide InputOk, OutputOk, IdsOk, NumbersOk, Openable, Expired, ReverseSamples, PcmFormat.FrameBytes,
           EngineModel.Terminate, EngineModel.FailUtterance;
      var queued := input[0];
      if Expired(request.mode, queued.frame.captureNs, now) {
        var f := PopInput();
        answer := Terminate(f.stream, f.utterance, Dropped);
        return;
      }
      if now < ReadyNs(injection, queued) {
        return Events([]);
      }
      var f := PopInput();
      answer := Process(f);
    }

    /** What becomes of a frame that is ready. */
    method Process(f: Frame) returns (answer: Answer)
      requires |f.pcm| % 2 == 0
      modifies this
      ensures Reply(View(), answer) == Processed(injection, old(View()), f)
    {
      hide EngineModel.Terminate, EngineModel.FailUtterance, ReverseSamples;
      var failing := injection.failAfterFrames.Some? && processed >= injection.failAfterFrames.value;
      processed := processed + 1;
      if failing {
        answer := FailUtterance(f, ProviderUnavailable);
        return;
      }
      if outputMs + f.format.frameDurationMs > OUTPUT_LIMIT_MS {
        answer := FailUtterance(f, QueueOverflow);
        return;
      }
      var pcm := MockTransformPcm(f.pcm);
      output := output + [QueuedOutput(f, pcm.value)];
      outputMs := outputMs + f.format.frameDurationMs;
      if !debugText {
        return Events([]);
      }
      answer := Events(TextEvents(View(), f));
      eventSequence := eventSequence + 2;
    }

    method PopOutput() returns (q: Queued)
      requires output != []
      modifies this`output, this`outputMs
      ensures q == old(output[0]) && View() == EngineModel.PopOutput(old(View()))
    {
      q := output[0];
      output, outputMs := output[1..], outputMs - q.frame.format.frameDurationMs;
    }

    method EmitAudio(q: Queued, now: nat) returns (events: seq<Event>)
      requires q.QueuedOutput?
      modifies this`eventSequence, this`nextAudio, this`lastAudio
      ensures events == AudioEvents(old(View()), q, now) && View() == AudioEmitted(old(View()), q.frame.utterance)
    {
      events := AudioEvents(View(), q, now);
      var u := q.frame.utterance;
      var number := if u in nextAudio then nextAudio[u] else 0;
      eventSequence := eventSequence + 2;
      nextAudio := nextAudio[u := number + 1];
      lastAudio := lastAudio[u := number];
    }

    method DrainOne(q: Queued, now: nat) returns (answer: Answer)
      requires q.QueuedOutput?
      modifies this
      ensures Reply(View(), answer) == EngineModel.DrainOne(old(View()), q, now)
    {
      hide EngineModel.Terminate, Expired, AudioEvents;
      var f := q.frame;
      if Expired(request.mode, f.captureNs, now) {
        answer := Terminate(f.stream, f.utterance, Dropped);
        return;
      }
      var events := EmitAudio(q, now);
      if !f.endOfUtterance {
        return Events(events);
      }
      answer := Terminate(f.stream, f.utterance, Completed);
      if answer.Events? {
        answer := Events(events + answer.events);
      }
    }

    method DrainOutput(now: nat) returns (answer: Answer)
      requires Valid()
      modifies this
      ensures old(Valid()) && Reply(View(), answer) == EngineModel.DrainOutput(old(View()), now)
      ensures Valid()
    {
      if closed {
        return Raised(SessionTerminal);
      }
      hide InputOk, OutputOk, IdsOk, NumbersOk, Openable, EngineModel.DrainOne, PcmFormat.FrameBytes;
      var events: seq<Event> := [];
      FollowingNothing(DrainFrom(View(), now));
      while output != []
        invariant Valid()
        invariant Following(events, DrainFrom(View(), now)) == DrainFrom(old(View()), now)
        decreases |output|
      {
        DrainTurn(View(), events, now);
        var q := PopOutput();
        answer := DrainOne(q, now);
        if answer.Raised? {
          return;
        }
        events := events + answer.events;
      }
      answer := Events(events);
      assert events + [] == events;
    }

    method CancelUtterance(direction: Direction, u: Uuid) returns (answer: Answer)
      requires Valid()
      modifies this
      ensures Reply(View(), answer) == EngineModel.CancelUtterance(old(View()), direction, u)
      ensures Valid()
    {
      CancelKeepsInv(View(), direction, u);
      PurgeIs(View(), u);
      hide Inv, PurgeQueues, EngineModel.Terminate;
      if closed {
        return Raised(SessionTerminal);
      }
      if direction != request.direction {
        return Raised(DirectionMismatch);
      }
      if u in terminal {
        return Raised(UtteranceTerminal);
      }
      if u !in streams {
        return Raised(UnknownUtterance);
      }
      var stream := streams[u];
      Purge(u);
      answer := Terminate(stream, u, Cancelled);
    }

    method ClearQueues()
      modifies this`input, this`output, this`inputMs, this`outputMs
      ensures View() == old(View()).(input := [], output := [], inputMs := 0, outputMs := 0)
    {
      input, output, inputMs, outputMs := [], [], 0, 0;
    }

    method ClearBooks()
      modifies this`ended, this`streams, this`nextAudio, this`lastAudio
      ensures View() == old(View()).(ended := {}, streams := map[], nextAudio := map[], lastAudio := map[])
    {
      ended, streams, nextAudio, lastAudio := {}, map[], map[], map[];
    }

    method CloseSession() returns (answer: Answer)
      requires Valid()
      modifies this
      ensures Reply(View(), answer) == EngineModel.CloseSession(old(View()))
      ensures Valid()
    {
      CloseKeepsInv(View());
      hide Inv;
      if closed {
        return Raised(SessionTerminal);
      }
      ClearQueues();
      ClearBooks();
      closed := true;
      var n := NextEventSequence();
      answer := Events([SessionClosed(Header(request.session, request.direction, n))]);
    }

    method UpdateDebugText(enabled: bool) returns (answer: Answer)
      requires Valid()
      modifies this`debugText
      ensures Reply(View(), answer) == EngineModel.UpdateDebugText(old(View()), enabled)
      ensures Valid()
    {
      DebugKeepsInv(View(), enabled);
      hide Inv;
      if closed {
        return Raised(SessionTerminal);
      }
      debugText := enabled;
      answer := Events([]);
    }

    /** When processing can go on: nothing, or the milliseconds to sleep. */
    method NextWakeup(now: nat) returns (ms: Option<nat>)
      requires Valid()
      ensures Valid() && ms == NextWakeupMs(injection, View(), now)
    {
      ms := NextWakeupMs(injection, View(), now);
    }

    /** The transport's pending loop: sleep until the head can be processed, process it,
        drain the output, until the input is empty or a call raises. However long each sleep
        really takes, every turn takes the head off the queue, so the loop ends. */
    method WorkOff(start: nat) returns (answer: Answer, ghost calls: seq<Op>)
      requires Valid() && !closed
      modifies this
      ensures Valid()
      ensures old(Valid()) && Reply(View(), answer) == Calls(injection, old(View()), calls)
      ensures answer.Events? ==> input == []
      ensures |calls| <= 2 * |old(input)|
    {
      var now: nat := start;
      answer, calls := Events([]), [];
      while input != []
        invariant Valid() && !closed && answer.Events?
        invariant Reply(View(), answer) == Calls(injection, old(View()), calls)
        invariant |calls| + 2 * |input| <= 2 * |old(input)|
        decreases |input|
      {
        var ms := NextWakeup(now);
        var later: nat :| later >= now + NS_PER_MS * (if ms.value < 1 then 1 else ms.value);
        WakeupMakesProgress(injection, View(), now, later);
        answer, calls := Turn(later, answer.events, old(View()), calls);
        if answer.Raised? {
          return;
        }
        now := later;
      }
    }

    /** One turn of the pending loop. */
    method Turn(now: nat, said: seq<Event>, ghost start: Session, ghost before: seq<Op>)
          returns (answer: Answer, ghost calls: seq<Op>)
      requires Valid() && !closed && Inv(start)
      requires Reply(View(), Events(said)) == Calls(injection, start, before)
      modifies this
      ensures Valid() && Reply(View(), answer) == Calls(injection, start, calls)
      ensures |calls| <= |before| + 2
      ensures old(Valid()) && |input| <= |EngineModel.ProcessNext(injection, old(View()), now).session.input|
      ensures answer.Events? ==> !closed && output == []
    {
      calls := before + [EngineRuns.Process(now)];
      CallsMore(injection, start, before, EngineRuns.Process(now));
      StaysOpen(injection, View(), now);
      answer := ProcessNext(now);
      if answer.Raised? {
        return;
      }
      var more := said + answer.events;
      CallsMore(injection, start, calls, Drain(now));
      calls := calls + [Drain(now)];
      DrainedIsOpen(View(), now);
      answer := DrainOutput(now);
      if answer.Events? {
        answer := Events(more + answer.events);
      }
    }
  }
}
