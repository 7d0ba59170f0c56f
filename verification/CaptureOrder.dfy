/** Why captures must not go back in time within an utterance: a run in which they do, and
    whose audio, fresh for the engine, the validator refuses. */
module CaptureOrder {
  import opened Wire
  import opened EngineModel
  import opened EngineRuns
  import opened Simulation
  import V = ValidatorModel

  const AT_ONCE := Injection(0, None)

  /** A frame as the session asks for it. */
  predicate Fits(request: OpenRequest, contract: Contract, f: Frame) {
    && f.session == request.session && f.direction == request.direction && f.stream == contract.stream
    && f.format == request.inputFormat && |f.pcm| == f.format.FrameBytes()
    && f.source == request.source && f.target == request.target && f.mode == request.mode
  }

  /** Two frames of one utterance; the second, captured earlier, ends it. The first is still
      fresh when it is played, but the end is not. */
  predicate Backward(request: OpenRequest, contract: Contract, f: Frame, g: Frame, heard: nat, played: nat) {
    && Fits(request, contract, f) && Fits(request, contract, g)
    && f.utterance == g.utterance && f.sequence < g.sequence && !f.endOfUtterance && g.endOfUtterance
    && !Expired(request.mode, f.captureNs, heard) && !Expired(request.mode, g.captureNs, heard)
    && !Expired(request.mode, f.captureNs, played) && Expired(request.mode, g.captureNs, played)
  }

  function BackwardRun(f: Frame, g: Frame, heard: nat, played: nat): seq<Op> {
    [Enqueue(f, heard), Enqueue(g, heard), Process(heard), Drain(played)]
  }

  /** The engine after the two frames came and the first was processed. */
  function Ready(request: OpenRequest, f: Frame, g: Frame, heard: nat): Session
    requires |f.pcm| % 2 == 0
  {
    var d := f.format.frameDurationMs;
    Opened(request).(lastFrameSequence := Some(g.sequence), streamId := Some(g.stream),
                     streams := map[g.utterance := g.stream], ended := {g.utterance}, processed := 1,
                     input := [QueuedInput(g, heard)], inputMs := d,
                     output := [QueuedOutput(f, ReverseSamples(f.pcm))], outputMs := d)
  }

  /** What the validator was told on the way. */
  function Told(v: V.Validator, f: Frame, g: Frame): V.Validator {
    v.(capture := map[f.utterance := f.captureNs], complete := map[f.utterance := g.captureNs])
  }

  function FirstQueued(request: OpenRequest, f: Frame, heard: nat): Session {
    Opened(request).(lastFrameSequence := Some(f.sequence), streamId := Some(f.stream),
                     streams := map[f.utterance := f.stream],
                     input := [QueuedInput(f, heard)], inputMs := f.format.frameDurationMs)
  }

  function BothQueued(request: OpenRequest, f: Frame, g: Frame, heard: nat): Session {
    FirstQueued(request, f, heard).(lastFrameSequence := Some(g.sequence), streamId := Some(g.stream),
                                    streams := map[g.utterance := g.stream], ended := {g.utterance},
                                    input := [QueuedInput(f, heard), QueuedInput(g, heard)],
                                    inputMs := f.format.frameDurationMs + g.format.frameDurationMs)
  }

  lemma FirstFrame(request: OpenRequest, contract: Contract, f: Frame, heard: nat)
    requires Openable(request) && Fits(request, contract, f) && !Expired(request.mode, f.captureNs, heard)
    requires !f.endOfUtterance
    ensures EnqueueFrame(Opened(request), f, heard) == Reply(FirstQueued(request, f, heard), Events([]))
  {
    hide PcmFormat.FrameBytes;
    assert [] + [QueuedInput(f, heard)] == [QueuedInput(f, heard)];
  }

  lemma SecondFrame(request: OpenRequest, contract: Contract, f: Frame, g: Frame, heard: nat, played: nat)
    requires Openable(request) && Backward(request, contract, f, g, heard, played)
    ensures EnqueueFrame(FirstQueued(request, f, heard), g, heard) ==
            Reply(BothQueued(request, f, g, heard), Events([]))
  {
    hide PcmFormat.FrameBytes;
    assert map[f.utterance := f.stream][g.utterance := g.stream] == map[g.utterance := g.stream];
    assert [QueuedInput(f, heard)] + [QueuedInput(g, heard)] == [QueuedInput(f, heard), QueuedInput(g, heard)];
  }

  lemma FirstProcessed(request: OpenRequest, contract: Contract, f: Frame, g: Frame, heard: nat, played: nat)
    requires Openable(request) && Backward(request, contract, f, g, heard, played) && !request.debugText
    requires Inv(BothQueued(request, f, g, heard))
    ensures |f.pcm| % 2 == 0
    ensures Apply(AT_ONCE, BothQueued(request, f, g, heard), Process(heard)) ==
            Reply(Ready(request, f, g, heard), Events([]))
  {
    var s := BothQueued(request, f, g, heard);
    PopInputKeepsInv(s);
    hide PcmFormat.FrameBytes, ReverseSamples, InputOk, OutputOk, IdsOk, NumbersOk;
    assert s.input[1..] == [QueuedInput(g, heard)];
    assert [] + [QueuedOutput(f, ReverseSamples(f.pcm))] == [QueuedOutput(f, ReverseSamples(f.pcm))];
  }

  /** Draining then plays the first audio of the utterance. */
  lemma FirstDrained(request: OpenRequest, contract: Contract, f: Frame, g: Frame, heard: nat, played: nat)
    requires Openable(request) && Backward(request, contract, f, g, heard, played) && |f.pcm| % 2 == 0
    ensures var (s, q) := (Ready(request, f, g, heard), QueuedOutput(f, ReverseSamples(f.pcm)));
            DrainOutput(s, played).answer == Events(AudioEvents(PopOutput(s), q, played))
  {
    hide PcmFormat.FrameBytes, ReverseSamples;
    var (s, q) := (Ready(request, f, g, heard), QueuedOutput(f, ReverseSamples(f.pcm)));
    var r := DrainOne(PopOutput(s), q, played);
    assert r == Reply(AudioEmitted(PopOutput(s), f.utterance), Events(AudioEvents(PopOutput(s), q, played)));
    assert DrainFrom(r.session, played).answer == Events([]);
    assert AudioEvents(PopOutput(s), q, played) + [] == AudioEvents(PopOutput(s), q, played);
  }

  // ---- The validator on the way ----

  lemma ToldFirst(v: V.Validator, f: Frame, heard: nat)
    requires v.isOpen && !v.closed && v.capture == v.complete == map[] && v.terminal == {} && !f.endOfUtterance
    ensures Tell(v, Enqueue(f, heard)) == V.Accept(v.(capture := map[f.utterance := f.captureNs],
                                                      complete := map[f.utterance := f.captureNs]))
  {}

  lemma ToldSecond(v: V.Validator, f: Frame, g: Frame, heard: nat)
    requires v.isOpen && !v.closed && f.utterance == g.utterance && g.endOfUtterance
    requires v.capture == v.complete == map[f.utterance := f.captureNs]
    ensures Tell(v, Enqueue(g, heard)) == V.Accept(Told(v, f, g))
  {}

  lemma Quietly(v: V.Validator, now: nat)
    ensures Deliver(v, [], now) == Some(v)
  {}

  /** Both ends after three of the four calls. */
  lemma ThreeCalls(request: OpenRequest, contract: Contract, f: Frame, g: Frame, heard: nat, played: nat)
    requires Openable(request) && SameContract(request, contract) && !request.debugText
    requires Backward(request, contract, f, g, heard, played)
    ensures |f.pcm| % 2 == 0
    ensures var j := Together(AT_ONCE, request, contract, BackwardRun(f, g, heard, played)[..3]);
            && j.Running? && j.session == Ready(request, f, g, heard) && j.validator.contract == contract
            && j.validator.complete == map[f.utterance := g.captureNs]
  {
    hide PcmFormat.FrameBytes, EnqueueFrame, Expired;
    var ops := BackwardRun(f, g, heard, played);
    OpeningAccepted(request, contract);
    var v0 := Deliver(V.Fresh(contract), [OpenedEvent(request)], 0).value;
    assert v0.isOpen && !v0.closed && v0.capture == v0.complete == map[] && v0.terminal == {};
    hide Deliver, Tell, Agree;
    assert ops[..1][..0] == [] && ops[..2][..1] == ops[..1] && ops[..3][..2] == ops[..2];
    FirstFrame(request, contract, f, heard);
    ToldFirst(v0, f, heard);
    var v1 := Tell(v0, Enqueue(f, heard)).validator;
    Quietly(v1, heard);
    assert Together(AT_ONCE, request, contract, ops[..1]) == Running(FirstQueued(request, f, heard), v1);
    SecondFrame(request, contract, f, g, heard, played);
    ToldSecond(v1, f, g, heard);
    var v2 := Told(v1, f, g);
    Quietly(v2, heard);
    assert Together(AT_ONCE, request, contract, ops[..2]) == Running(BothQueued(request, f, g, heard), v2);
    FirstProcessed(request, contract, f, g, heard, played);
    TellsNothing(v2, heard);
  }

  lemma TellsNothing(v: V.Validator, now: nat)
    ensures Tell(v, Process(now)) == V.Accept(v)
  {}

  lemma RunsBackward(request: OpenRequest, contract: Contract, f: Frame, g: Frame, heard: nat, played: nat)
    requires Backward(request, contract, f, g, heard, played)
    ensures OnStream(contract, BackwardRun(f, g, heard, played)) && !Forward(BackwardRun(f, g, heard, played))
  {
    hide PcmFormat.FrameBytes;
    var ops := BackwardRun(f, g, heard, played);
    assert ops[0].frame.captureNs > ops[1].frame.captureNs;
  }

  lemma FourthIsLate(request: OpenRequest, contract: Contract, f: Frame, g: Frame, heard: nat, played: nat)
    requires Openable(request) && SameContract(request, contract) && !request.debugText
    requires Backward(request, contract, f, g, heard, played)
    ensures RefusedAt(AT_ONCE, request, contract, BackwardRun(f, g, heard, played), 3)
  {
    ThreeCalls(request, contract, f, g, heard, played);
    FirstDrained(request, contract, f, g, heard, played);
    hide Together, DrainOutput, PcmFormat.FrameBytes, ReverseSamples;
    var j := Together(AT_ONCE, request, contract, BackwardRun(f, g, heard, played)[..3]);
    var (s, q) := (Ready(request, f, g, heard), QueuedOutput(f, ReverseSamples(f.pcm)));
    var es := AudioEvents(PopOutput(s), q, played);
    assert es[0] in es && FirstTooLate(j.validator, es[0], played);
    assert Apply(AT_ONCE, j.session, Drain(played)) == DrainOutput(s, played);
  }

  /** In every such run the validator refuses what the engine plays. */
  lemma BackwardRefused(request: OpenRequest, contract: Contract, f: Frame, g: Frame, heard: nat, played: nat)
    requires Openable(request) && SameContract(request, contract) && !request.debugText
    requires Backward(request, contract, f, g, heard, played)
    ensures OnStream(contract, BackwardRun(f, g, heard, played)) && !Forward(BackwardRun(f, g, heard, played))
    ensures Together(AT_ONCE, request, contract, BackwardRun(f, g, heard, played)).Refused?
  {
    hide Together, RefusedAt, Backward, OnStream, Forward;
    RunsBackward(request, contract, f, g, heard, played);
    FourthIsLate(request, contract, f, g, heard, played);
    RefusedIff(AT_ONCE, request, contract, BackwardRun(f, g, heard, played));
  }

  /** And there are such runs: in the mode that waits longest, a frame captured at two seconds
      and an end captured at zero, both heard at two seconds and played at four. */
  lemma BackwardExample(request: OpenRequest, contract: Contract, u: Uuid, pcm: Pcm)
    requires Openable(request) && SameContract(request, contract) && !request.debugText && request.mode == QualityFirst
    requires |pcm| == request.inputFormat.FrameBytes()
    ensures var f := Frame(request.session, request.direction, contract.stream, u, 0, 2000 * NS_PER_MS,
                           request.inputFormat, request.source, request.target, request.mode, pcm, false);
            var g := f.(sequence := 1, captureNs := 0, endOfUtterance := true);
            Together(AT_ONCE, request, contract, BackwardRun(f, g, 2000 * NS_PER_MS, 4000 * NS_PER_MS)).Refused?
  {
    hide PcmFormat.FrameBytes;
    var f := Frame(request.session, request.direction, contract.stream, u, 0, 2000 * NS_PER_MS,
                   request.inputFormat, request.source, request.target, request.mode, pcm, false);
    var g := f.(sequence := 1, captureNs := 0, endOfUtterance := true);
    BackwardRefused(request, contract, f, g, 2000 * NS_PER_MS, 4000 * NS_PER_MS);
  }
}
