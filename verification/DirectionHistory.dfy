/** A direction session as a reader of its history: over every run, which speech is being
    collected, which captured events it takes, and what each provider event makes it do. */
module DirectionHistory {
  import opened Wire
  import W = WatchdogModel
  import V = ValidatorModel
  import C = CoordinatorModel
  import opened DirectionSessionModel
  import P = PlaybackRuns

  /** What came of a step: whether it was taken, and which utterances it gave up. */
  datatype Entry = Entry(op: P.Op, ok: bool, givenUp: set<Uuid>)

  predicate Takes(s: DirectionSession, op: P.Op) {
    match op
    case Capture(e) => HandleCapture(s, e).result.Success?
    case Provide(e, at) => C.ValidateEvent(s.coordinator, e, at).error.None?
    case PollAt(_) => true
  }

  function GivenUp(s: DirectionSession, op: P.Op): set<Uuid> {
    if !op.PollAt? then {}
    else
      match C.Poll(s.coordinator, op.at).outcome
      case Rang(Cancel(us)) => us
      case _ => {}
  }

  function Answer(s: DirectionSession, op: P.Op): Entry {
    Entry(op, Takes(s, op), GivenUp(s, op))
  }

  function History(contract: Contract, ops: seq<P.Op>): seq<Entry> {
    if ops == [] then []
    else
      var (before, op) := (ops[..|ops| - 1], ops[|ops| - 1]);
      History(contract, before) + [Answer(P.Run(contract, before), op)]
  }

  // ---- Reading a history ----

  function Before(h: seq<Entry>): seq<Entry>
    requires h != []
  {
    h[..|h| - 1]
  }

  function Latest(h: seq<Entry>): Entry
    requires h != []
  {
    h[|h| - 1]
  }

  predicate SaysClosed(x: Entry) {
    x.op.Provide? && x.ok && x.op.event.SessionClosed?
  }

  /** The speech being collected: begun, and neither ended nor given up since. */
  function Collecting(h: seq<Entry>): Option<Uuid> {
    if h == [] then None
    else
      var (u, x) := (Collecting(Before(h)), Latest(h));
      if x.op.Capture? && x.ok && x.op.capture.SpeechStarted? then Some(x.op.capture.utterance)
      else if x.op.Capture? && x.ok && x.op.capture.endOfUtterance then None
      else if SaysClosed(x) || (u.Some? && u.value in x.givenUp) then None
      else u
  }

  /** Utterances begun, or attempted, and not ended. */
  function Active(contract: Contract, h: seq<Entry>): set<Uuid>
    decreases |h|, 0
  {
    if h == [] then {}
    else
      var (us, x) := (Active(contract, Before(h)), Latest(h));
      if SaysClosed(x) then {}
      else if x.op.Provide? && x.ok && x.op.event.UtteranceFinal? then us - {x.op.event.utterance}
      else if x.op.Capture? && Begins(contract, Before(h), x.op.capture) then us + {x.op.capture.utterance}
      else us
  }

  /** Speech begins on the session's stream, with none being collected, under a new name. */
  predicate Begins(contract: Contract, h: seq<Entry>, e: CaptureEvent)
    decreases |h|, 1
  {
    e.SpeechStarted? && e.stream == contract.stream && Collecting(h).None? && e.utterance !in Active(contract, h)
  }

  // ---- The session is its history ----

  ghost predicate Meant(s: DirectionSession, contract: Contract, h: seq<Entry>) {
    s.contract == contract && s.collecting == Collecting(h) && s.active == Active(contract, h)
  }

  lemma OneMore(h: seq<Entry>, x: Entry)
    ensures Before(h + [x]) == h && Latest(h + [x]) == x
  {}

  lemma StepMeant(s: DirectionSession, contract: Contract, h: seq<Entry>, op: P.Op)
    requires Meant(s, contract, h)
    ensures Meant(P.After(s, op), contract, h + [Answer(s, op)])
  {
    hide C.StartUtterance, C.RecordEndOfUtterance, C.ValidateEvent, C.ConsumeReceiveAudio, C.CancelExpiredUtterance,
         C.Poll;
    OneMore(h, Answer(s, op));
    var (h', s') := (h + [Answer(s, op)], P.After(s, op));
    assert s'.collecting == Collecting(h');
    assert s'.active == Active(contract, h');
  }

  lemma {:induction false} RunMeant(contract: Contract, ops: seq<P.Op>)
    ensures Meant(P.Run(contract, ops), contract, History(contract, ops))
  {
    if ops != [] {
      var (before, op) := (ops[..|ops| - 1], ops[|ops| - 1]);
      RunMeant(contract, before);
      hide Meant, P.After, Answer;
      StepMeant(P.Run(contract, before), contract, History(contract, before), op);
    }
  }

  // ---- The theorems, for every run ----

  /** Over every run, a captured event is taken exactly when it is in place and the coordinator
      takes it: speech begins with none being collected and a new name, and frames belong to
      the speech being collected. */
  lemma CaptureTakenIff(contract: Contract, ops: seq<P.Op>, e: CaptureEvent)
    ensures var (s, h) := (P.Run(contract, ops), History(contract, ops));
            HandleCapture(s, e).result.Success? <==>
              match e
              case SpeechStarted(stream, u, at) =>
                Begins(contract, h, e) && C.StartUtterance(s.coordinator, stream, u, at).error.None?
              case CaptureFrame(stream, u, frame, end) =>
                && stream == contract.stream && Collecting(h) == Some(u)
                && (end ==> C.RecordEndOfUtterance(s.coordinator, stream, u, frame.captureNs).error.None?)
  {
    hide P.Run, History, Collecting, Active, C.StartUtterance, C.RecordEndOfUtterance;
    RunMeant(contract, ops);
  }

  /** What is said to the rest of the daemon when an event is taken. */
  function Said(e: Event): seq<Effect> {
    match e
    case SessionOpened(_, _, _, _) => []
    case AudioDelta(_, stream, u, n, at, _, pcm) => [Playback(stream, u, n, at, pcm)]
    case TranscriptDelta(_, _, u, isFinal) => if isFinal then [TranscriptFinal(u)] else []
    case TranslationDelta(_, _, u, isFinal) => if isFinal then [TranslationFinal(u)] else []
    case UtteranceFinal(_, _, u, _, outcome) => [TerminalOutcome(u, outcome), TerminalReached(u)]
    case SessionClosed(_) => [Closed]
    case Health(_, _, _) => []
    case Latency(_, _, about, _, _, _, tts, total) => [LatencyNoted(about, tts, total)]
    case Error(_, _, about, code) => [ProviderFailed(about, code)]
  }

  /** Over every run, an event that is taken is passed on whole; of the others, audio of an
      utterance being cancelled is passed over, audio that came too late cancels its utterance,
      and anything else is an error. */
  lemma EventDoes(contract: Contract, ops: seq<P.Op>, e: Event, at: W.Ns)
    requires contract.outputFormat == PROVIDER_FORMAT
    ensures var s := P.Run(contract, ops);
            var (d, r) := (C.ValidateEvent(s.coordinator, e, at), HandleProviderEvent(s, e, at));
            if d.error.None? then r.result == Success(Said(e))
            else if d.error == Some(C.Validation(V.CancelledAudio)) then r.result == Success([])
            else if d.error == Some(C.Validation(V.ExpiredAudio)) && e.AudioDelta?
            then (r.result.Success? <==>
                    C.CancelExpiredUtterance(d.coordinator, e.stream, e.utterance, at).error.None?)
                 && (r.result.Success? ==> r.result.value == [ExpiredAudio(e.utterance, CancelRequest(e.utterance))])
            else r.result == Failure(CoordinatorFailed(d.error.value))
  {
    var s := P.Run(contract, ops);
    P.RunOk(contract, ops);
    P.PlaysItsOwnBytes(s, e, at);
    hide P.Run, C.CancelExpiredUtterance, P.SessionOk, C.ConsumeReceiveAudio;
    if e.AudioDelta? {
      hide C.ReceiveAudio;
    } else {
      hide C.ValidateEvent;
    }
  }
}
