/** What captured speech becomes: over every run the frames taken are sent on one by one, each
    with its own bytes and times, numbered 0, 1, 2, ..., so that the provider never takes one
    for a repetition. */
module RequestRuns {
  import opened Wire
  import W = WatchdogModel
  import C = CoordinatorModel
  import E = EngineModel
  import R = EngineRuns
  import T = EngineTraces
  import H = EngineHistory
  import opened DirectionSessionModel
  import P = PlaybackRuns
  import S = SegmenterModel
  import Q = CaptureRuns

  /** A frame as it was captured. */
  datatype Captured = Captured(stream: Uuid, utterance: Uuid, frame: PcmFrame, endOfUtterance: bool)

  /** The numbers of sent frames stop at the greatest there is. */
  function Number(k: nat): nat {
    if k < 0x1_0000_0000_0000_0000 then k else 0xFFFF_FFFF_FFFF_FFFF
  }

  /** The request a captured frame becomes when `k` were sent before it. */
  function Sent(c: Captured, k: nat): Request {
    InputFrame(c.stream, c.utterance, Number(k), c.frame.captureNs, c.frame.format, c.frame.pcm, c.endOfUtterance)
  }

  function AllSent(cs: seq<Captured>): (r: seq<Request>)
    ensures |r| == |cs|
  {
    seq(|cs|, k requires 0 <= k < |cs| => Sent(cs[k], k))
  }

  // ---- One captured event ----

  /** What was captured and taken. */
  function TakenOf(s: DirectionSession, e: CaptureEvent): seq<Captured> {
    if e.CaptureFrame? && HandleCapture(s, e).result.Success?
    then [Captured(e.stream, e.utterance, e.frame, e.endOfUtterance)] else []
  }

  function RequestsOf(s: DirectionSession, e: CaptureEvent): seq<Request> {
    match HandleCapture(s, e).result
    case Success(Some(r)) => [r]
    case _ => []
  }

  lemma CaptureSends(s: DirectionSession, e: CaptureEvent, k: nat)
    requires s.nextInput == Number(k)
    ensures var cs := TakenOf(s, e);
            && RequestsOf(s, e) == (if cs == [] then [] else [Sent(cs[0], k)])
            && HandleCapture(s, e).session.nextInput == Number(k + |cs|)
  {
    hide C.StartUtterance, C.RecordEndOfUtterance;
  }

  lemma AllSentMore(cs: seq<Captured>, more: seq<Captured>)
    requires |more| <= 1
    ensures AllSent(cs + more) == AllSent(cs) + if more == [] then [] else [Sent(more[0], |cs|)]
  {
    assert more == [] ==> cs + more == cs;
  }

  // ---- Every run of a direction session ----

  function Taken(contract: Contract, ops: seq<P.Op>): seq<Captured> {
    if ops == [] then []
    else
      var (before, op) := (ops[..|ops| - 1], ops[|ops| - 1]);
      Taken(contract, before) + if op.Capture? then TakenOf(P.Run(contract, before), op.capture) else []
  }

  function Requests(contract: Contract, ops: seq<P.Op>): seq<Request> {
    if ops == [] then []
    else
      var (before, op) := (ops[..|ops| - 1], ops[|ops| - 1]);
      Requests(contract, before) + if op.Capture? then RequestsOf(P.Run(contract, before), op.capture) else []
  }

  /** Over every run, the k-th request is the k-th frame taken, with number k. */
  lemma {:induction false} RequestsInOrder(contract: Contract, ops: seq<P.Op>)
    ensures Requests(contract, ops) == AllSent(Taken(contract, ops))
    ensures P.Run(contract, ops).nextInput == Number(|Taken(contract, ops)|)
  {
    if ops != [] {
      var (before, op) := (ops[..|ops| - 1], ops[|ops| - 1]);
      RequestsInOrder(contract, before);
      var (s, cs) := (P.Run(contract, before), Taken(contract, before));
      hide P.Run, HandleCapture, Sent;
      if op.Capture? {
        CaptureSends(s, op.capture, |cs|);
        AllSentMore(cs, TakenOf(s, op.capture));
      } else {
        AllSentMore(cs, []);
        OthersSendNothing(s, op);
      }
      RunOne(contract, ops);
    }
  }

  lemma RunOne(contract: Contract, ops: seq<P.Op>)
    requires ops != []
    ensures P.Run(contract, ops) == P.After(P.Run(contract, ops[..|ops| - 1]), ops[|ops| - 1])
  {}

  lemma OthersSendNothing(s: DirectionSession, op: P.Op)
    requires !op.Capture?
    ensures P.After(s, op).nextInput == s.nextInput
  {
    hide C.ValidateEvent, C.Poll, C.ConsumeReceiveAudio, C.CancelExpiredUtterance;
  }

  /** And each frame taken is one that was captured, in the order they were captured. */
  lemma {:induction false} TakenWereCaptured(contract: Contract, ops: seq<P.Op>) returns (at: seq<nat>)
    ensures |at| == |Taken(contract, ops)|
    ensures forall i, j :: 0 <= i < j < |at| ==> at[i] < at[j]
    ensures forall i :: 0 <= i < |at| ==> at[i] < |ops|
    ensures forall i :: 0 <= i < |at| ==>
              var (op, c) := (ops[at[i]], Taken(contract, ops)[i]);
              op == P.Capture(CaptureFrame(c.stream, c.utterance, c.frame, c.endOfUtterance))
  {
    if ops == [] {
      at := [];
    } else {
      var (before, op) := (ops[..|ops| - 1], ops[|ops| - 1]);
      at := TakenWereCaptured(contract, before);
      hide P.Run, HandleCapture;
      if op.Capture? && TakenOf(P.Run(contract, before), op.capture) != [] {
        at := at + [|ops| - 1];
      }
    }
  }

  // ---- The segmenter's speech ----

  function Captures(events: seq<CaptureEvent>): (r: seq<P.Op>)
    ensures |r| == |events|
  {
    seq(|events|, i requires 0 <= i < |events| => P.Capture(events[i]))
  }

  /** The frames among captured events, in order. */
  function FramesIn(events: seq<CaptureEvent>): seq<Captured> {
    if events == [] then []
    else
      (match events[0]
       case SpeechStarted(_, _, _) => []
       case CaptureFrame(stream, u, frame, end) => [Captured(stream, u, frame, end)])
      + FramesIn(events[1..])
  }

  /** What the segmenter says in a run, frame after frame. */
  function Said(contract: Contract, asked: S.Limits, ops: seq<Q.Op>): seq<Captured> {
    if ops == [] then []
    else
      var (before, op) := (ops[..|ops| - 1], ops[|ops| - 1]);
      var w := Q.Run(contract, asked, before).world;
      Said(contract, asked, before) +
      if op.Hearing? then FramesIn(S.Hear(w.ear, op.frame, op.voice, op.newId).events) else []
  }

  /** The same run, event by event. */
  function Flat(contract: Contract, asked: S.Limits, ops: seq<Q.Op>): seq<P.Op> {
    if ops == [] then []
    else
      var (before, op) := (ops[..|ops| - 1], ops[|ops| - 1]);
      var w := Q.Run(contract, asked, before).world;
      Flat(contract, asked, before) +
      match op
      case Hearing(frame, voice, newId) => Captures(S.Hear(w.ear, frame, voice, newId).events)
      case Receiving(e, at) => [P.Provide(e, at)]
      case Polling(at) => [P.PollAt(at)]
  }

  lemma OpMore(contract: Contract, ops: seq<P.Op>, op: P.Op)
    ensures P.Run(contract, ops + [op]) == P.After(P.Run(contract, ops), op)
    ensures Taken(contract, ops + [op]) ==
            Taken(contract, ops) + if op.Capture? then TakenOf(P.Run(contract, ops), op.capture) else []
  {
    hide P.After, HandleCapture;
    assert (ops + [op])[..|ops|] == ops;
  }

  lemma {:induction false} FedRun(contract: Contract, ops: seq<P.Op>, events: seq<CaptureEvent>)
    requires Q.Feed(P.Run(contract, ops), events).error.None?
    ensures P.Run(contract, ops + Captures(events)) == Q.Feed(P.Run(contract, ops), events).session
    ensures Taken(contract, ops + Captures(events)) == Taken(contract, ops) + FramesIn(events)
    decreases |events|
  {
    hide P.Run, Taken, HandleCapture, Captures;
    CapturesFrom(ops, events);
    if events != [] {
      var op := P.Capture(events[0]);
      OpMore(contract, ops, op);
      var (cs, e) := (Taken(contract, ops), TakenOf(P.Run(contract, ops), events[0]));
      FedRun(contract, ops + [op], events[1..]);
      assert cs + (e + FramesIn(events[1..])) == (cs + e) + FramesIn(events[1..]);
    }
  }

  lemma CapturesFrom(ops: seq<P.Op>, events: seq<CaptureEvent>)
    ensures ops + Captures(events) ==
            if events == [] then ops else (ops + [P.Capture(events[0])]) + Captures(events[1..])
  {}

  lemma {:induction false} SameRun(contract: Contract, asked: S.Limits, ops: seq<Q.Op>)
    requires Q.Run(contract, asked, ops).error.None?
    ensures P.Run(contract, Flat(contract, asked, ops)) == Q.Run(contract, asked, ops).world.session
    ensures Taken(contract, Flat(contract, asked, ops)) == Said(contract, asked, ops)
  {
    if ops != [] {
      var (before, op) := (ops[..|ops| - 1], ops[|ops| - 1]);
      hide P.Run, Taken, HandleCapture, HandleProviderEvent, Poll, S.Hear, Q.Feed;
      SameRun(contract, asked, before);
      var (w, flat) := (Q.Run(contract, asked, before).world, Flat(contract, asked, before));
      match op
      case Hearing(frame, voice, newId) => FedRun(contract, flat, S.Hear(w.ear, frame, voice, newId).events);
      case Receiving(e, at) => OpMore(contract, flat, P.Provide(e, at));
      case Polling(at) => OpMore(contract, flat, P.PollAt(at));
    }
  }

  /** As long as no captured event is refused, every frame the segmenter lets through is sent,
      in order, with its own number, bytes, times and end. */
  lemma SpeechIsSent(contract: Contract, asked: S.Limits, ops: seq<Q.Op>)
    requires Q.Run(contract, asked, ops).error.None?
    ensures Requests(contract, Flat(contract, asked, ops)) == AllSent(Said(contract, asked, ops))
  {
    hide Q.Run, P.Run, Flat, Taken, Said, Requests, Sent;
    SameRun(contract, asked, ops);
    RequestsInOrder(contract, Flat(contract, asked, ops));
  }

  // ---- At the provider ----

  /** The frame the provider reads from a request. */
  function Read(contract: Contract, r: Request): E.Frame
    requires r.InputFrame?
  {
    E.Frame(contract.session, contract.direction, r.stream, r.utterance, r.sequence, r.captureNs, r.format,
            contract.source, contract.target, contract.mode, r.pcm, r.endOfUtterance)
  }

  /** The provider was given these requests, from the first on. */
  predicate Carries(contract: Contract, rs: seq<Request>, fs: seq<E.Frame>) {
    && |fs| <= |rs|
    && forall i :: 0 <= i < |fs| ==> rs[i].InputFrame? && fs[i] == Read(contract, rs[i])
  }

  /** The frames given to the provider, in order. */
  function Given(ops: seq<R.Op>): seq<E.Frame> {
    if ops == [] then []
    else
      var op := ops[|ops| - 1];
      Given(ops[..|ops| - 1]) + if op.Enqueue? then [op.frame] else []
  }

  lemma {:induction false} GivenAreTaken(inj: E.Injection, request: E.OpenRequest, ops: seq<R.Op>)
    requires E.Openable(request) && !T.Run(inj, request, ops).raised
    ensures H.Taken(inj, request, ops) == Given(ops)
  {
    hide T.Run, H.Taken;
    if ops == [] {
      H.NoneTaken(inj, request);
    } else {
      T.OneMore(inj, request, ops);
      H.OneTaken(inj, request, ops);
      GivenAreTaken(inj, request, ops[..|ops| - 1]);
    }
  }

  /** Frames captured and sent over any run, given to the provider in that order with anything in
      between, are never refused as repeated or out of order, as long as the numbers last. */
  lemma NeverRepeated(contract: Contract, sent: seq<P.Op>, inj: E.Injection, request: E.OpenRequest, ops: seq<R.Op>,
        f: E.Frame, now: nat)
    requires E.Openable(request) && !T.Run(inj, request, ops).raised
    requires |Requests(contract, sent)| <= 0x1_0000_0000_0000_0000
    requires Carries(contract, Requests(contract, sent), Given(ops) + [f])
    ensures E.EnqueueFrame(T.Run(inj, request, ops).session, f, now).answer !in
            {E.Raised(E.DuplicateFrameSequence), E.Raised(E.StaleFrameSequence)}
  {
    hide T.Run, H.Taken, E.EnqueueFrame;
    RequestsInOrder(contract, sent);
    GivenAreTaken(inj, request, ops);
    H.FrameRefusedIff(inj, request, ops, f, now);
    var (fs, k) := (Given(ops) + [f], |Given(ops)|);
    if k > 0 {
      assert fs[k - 1] == Given(ops)[k - 1] && fs[k] == f;
    }
  }
}
