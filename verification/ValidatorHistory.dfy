/** The validator as a reader of its history: over every run its verdict on the next call is
    fixed by the calls made and the verdicts given so far, with no other memory. */
module ValidatorHistory {
  import opened Wire
  import opened Figures
  import K = Coupling
  import V = ValidatorModel
  import opened ValidatorRuns

  /** A call and what the validator said to it. */
  datatype Entry = Entry(call: Call, verdict: V.Verdict)

  function History(contract: Contract, calls: seq<Call>): (h: seq<Entry>)
    ensures |h| == |calls|
  {
    if calls == [] then []
    else
      var (earlier, c) := (calls[..|calls| - 1], calls[|calls| - 1]);
      History(contract, earlier) + [Entry(c, After(Run(contract, earlier), c).verdict)]
  }

  // ---- Reading a history ----

  predicate Took(x: Entry) {
    x.call.Receive? && x.verdict.Accepted?
  }

  /** Audio that came in order but too late counts as received. */
  predicate Counts(x: Entry) {
    x.call.Receive? && x.verdict in {V.Accepted, V.Rejected(V.ExpiredAudio), V.Rejected(V.CancelledAudio)}
  }

  predicate Ends(x: Entry, u: Uuid) {
    Took(x) && x.call.event.UtteranceFinal? && x.call.event.utterance == u
  }

  /** The event was refused for what it says, not for how it was addressed and numbered. */
  predicate Read(x: Entry) {
    x.call.Receive? && x.verdict !in {V.Rejected(V.SessionTerminal), V.Rejected(V.OpenRequired),
        V.Rejected(V.DuplicateOpen), V.Rejected(V.SessionMismatch), V.Rejected(V.DirectionMismatch),
        V.Rejected(V.StreamMismatch), V.Rejected(V.SequenceGap), V.Rejected(V.DuplicateSequence),
        V.Rejected(V.StaleSequence)}
  }

  function Before(h: seq<Entry>): seq<Entry>
    requires h != []
  {
    h[..|h| - 1]
  }

  function Latest(h: seq<Entry>): Entry
    requires h != []
  {
    h[|h| - 1]
  }

  predicate IsOpen(h: seq<Entry>) {
    h != [] && (IsOpen(Before(h)) || (Took(Latest(h)) && Latest(h).call.event.SessionOpened?))
  }

  /** The provider said so, or there was no room to remember one more end. */
  predicate IsClosed(h: seq<Entry>) {
    h != [] && (|| IsClosed(Before(h))
                || (Took(Latest(h)) && Latest(h).call.event.SessionClosed?)
                || Latest(h).verdict == V.Rejected(V.TerminalCapacityExceeded))
  }

  /** The number of the last event that counts. */
  function LastNumber(h: seq<Entry>): Option<nat> {
    if h == [] then None
    else if Counts(Latest(h)) then Some(Latest(h).call.event.header.sequence)
    else LastNumber(Before(h))
  }

  /** Utterances begun and not ended. */
  function Open(h: seq<Entry>): set<Uuid> {
    if h == [] then {}
    else
      var (us, x) := (Open(Before(h)), Latest(h));
      if Took(x) && x.call.event.UtteranceFinal? then us - {x.call.event.utterance}
      else if x.call.Input? && x.verdict.Accepted? then us + {x.call.utterance}
      else us
  }

  function Ended(h: seq<Entry>): set<Uuid> {
    if h == [] then {}
    else
      var (us, x) := (Ended(Before(h)), Latest(h));
      if Took(x) && x.call.event.UtteranceFinal? then us + {x.call.event.utterance} else us
  }

  /** Utterances asked to be cancelled and not ended since. */
  function Cancelling(h: seq<Entry>): set<Uuid> {
    if h == [] then {}
    else
      var (us, x) := (Cancelling(Before(h)), Latest(h));
      if Took(x) && x.call.event.UtteranceFinal? then us - {x.call.event.utterance}
      else if x.call.CancelRequested? && x.verdict.Accepted? then us + {x.call.utterance}
      else us
  }

  /** The capture time an open utterance's audio is measured from: its end if it was told,
      otherwise its beginning. */
  function EndTime(h: seq<Entry>, u: Uuid): Option<nat> {
    if h == [] then None
    else
      var (t, x) := (EndTime(Before(h), u), Latest(h));
      if Ends(x, u) then None
      else if x.call.Input? && x.call.utterance == u && x.verdict.Accepted? && t.None? then Some(x.call.captureNs)
      else if x.call.EndOfUtterance? && x.call.utterance == u && x.verdict.Accepted? then Some(x.call.captureNs)
      else t
  }

  /** How much audio of an open utterance has come in order. */
  function Heard(h: seq<Entry>, u: Uuid): nat {
    if h == [] then 0
    else
      var x := Latest(h);
      if Ends(x, u) then 0
      else
        var more := Counts(x) && x.call.event.AudioDelta? && x.call.event.utterance == u;
        Heard(Before(h), u) + if more then 1 else 0
  }

  /** The number of the last audio taken of an open utterance. */
  function LastPlayed(h: seq<Entry>, u: Uuid): Option<nat> {
    if h == [] then None
    else
      var x := Latest(h);
      if Ends(x, u) then None
      else if Took(x) && x.call.event.AudioDelta? && x.call.event.utterance == u
      then Some(x.call.event.audioSequence)
      else LastPlayed(Before(h), u)
  }

  /** The utterance whose dropped end must follow an error of this kind. */
  function Awaited(h: seq<Entry>, code: ErrorCode): Option<Uuid> {
    if h == [] then None
    else
      var (u, x) := (Awaited(Before(h), code), Latest(h));
      if Took(x) && x.call.event.Error? && x.call.event.code == code then x.call.event.about
      else if u.Some? && Ends(x, u.value) && x.call.event.outcome.Dropped? then None
      else u
  }

  /** Something else must come first: the answer to a cancellation, or an awaited end. */
  predicate Bound(h: seq<Entry>, e: Event) {
    || (e.Subject().Some? && e.Subject().value in Cancelling(h))
    || Awaited(h, QueueOverflow).Some? || Awaited(h, NoSpeech).Some?
  }

  predicate HeardNothing(e: Event)
    requires e.Latency?
  {
    e.asrFirstMs.Some? && e.asrFinalMs.Some? && e.mtFirstMs.None? && e.ttsFirstMs.None?
  }

  /** The utterance just reported to hold no speech, as long as nothing else was said. */
  function NoSpeechIn(h: seq<Entry>): Option<Uuid> {
    if h == [] then None
    else
      var (u, x) := (NoSpeechIn(Before(h)), Latest(h));
      if !Read(x) || Bound(Before(h), x.call.event) then u
      else
        match x.call.event
        case Latency(_, _, about, _, _, _, _, _) =>
          if !Took(x) then u else if HeardNothing(x.call.event) then about else None
        case Error(_, _, _, code) => if code.NoSpeech? && !Took(x) then u else None
        case _ => None
  }

  function DebugText(contract: Contract, h: seq<Entry>): bool {
    if h == [] then contract.debugText
    else if Latest(h).call.DebugText? then Latest(h).call.enabled
    else DebugText(contract, Before(h))
  }

  // ---- What is taken, told from the history ----

  predicate OnStream(contract: Contract, e: Event) {
    match e
    case SessionOpened(_, _, _, _) => true
    case SessionClosed(_) => true
    case Health(_, _, _) => true
    case Error(_, stream, about, _) =>
      (stream.Some? ==> stream.value == contract.stream) && (about.Some? ==> stream.Some?)
    case _ => e.stream == contract.stream
  }

  predicate Addressed(contract: Contract, e: Event) {
    e.header.session == contract.session && e.header.direction == contract.direction && OnStream(contract, e)
  }

  /** The first event opens the session as number 1; later ones have greater numbers. */
  predicate InOrder(h: seq<Entry>, e: Event) {
    && (e.SessionOpened? <==> !IsOpen(h))
    && (if LastNumber(h).None? then e.header.sequence == 1 else e.header.sequence > LastNumber(h).value)
  }

  /** Audio that is next, in the contract's format and of a frame's length. */
  predicate NextAudio(contract: Contract, h: seq<Entry>, e: Event)
    requires e.AudioDelta?
  {
    && e.utterance in Open(h) && e.audioSequence == Heard(h, e.utterance)
    && e.format == contract.outputFormat && |e.pcm| == e.format.FrameBytes()
  }

  /** Nothing was played yet, and the speech ended too long ago. */
  predicate Stale(contract: Contract, h: seq<Entry>, e: Event, now: nat)
    requires e.AudioDelta?
  {
    && LastPlayed(h, e.utterance).None? && EndTime(h, e.utterance).Some?
    && now - EndTime(h, e.utterance).value > OldestNs(contract.mode)
  }

  predicate AboutOpen(h: seq<Entry>, about: Option<Uuid>) {
    about.Some? ==> about.value in Open(h)
  }

  /** The end that is awaited. */
  predicate AnswersBound(h: seq<Entry>, e: Event) {
    && e.UtteranceFinal? && |Ended(h)| < 4096
    && if e.utterance in Cancelling(h) then e.outcome.Cancelled? && e.finalAudio == LastOf(Heard(h, e.utterance))
       else if Awaited(h, QueueOverflow).Some?
       then && Awaited(h, QueueOverflow) == Some(e.utterance)
            && e.outcome.Dropped? && e.finalAudio == LastPlayed(h, e.utterance)
       else Awaited(h, NoSpeech) == Some(e.utterance) && e.outcome.Dropped? && e.finalAudio.None?
  }

  /** What may be said when nothing is awaited. */
  predicate Sayable(contract: Contract, h: seq<Entry>, e: Event, now: nat) {
    match e
    case SessionOpened(_, input, output, can) =>
      && input == contract.inputFormat && output == contract.outputFormat
      && can.audioOutput && can.cancellation && (can.cloudEgress <==> contract.provider == OpenAi)
    case AudioDelta(_, _, _, _, _, _, _) => NextAudio(contract, h, e) && !Stale(contract, h, e, now)
    case TranscriptDelta(_, _, u, _) => u in Open(h) && DebugText(contract, h)
    case TranslationDelta(_, _, u, _) => u in Open(h) && DebugText(contract, h)
    case UtteranceFinal(_, _, u, last, outcome) =>
      u in Open(h) && outcome in {Completed, Dropped} && last == LastPlayed(h, u) && |Ended(h)| < 4096
    case SessionClosed(_) => true
    case Health(_, provider, hasQueues) => provider == contract.provider && hasQueues
    case Latency(_, _, about, _, _, _, _, _) => AboutOpen(h, about)
    case Error(_, _, about, code) =>
      && code != UnspecifiedError && AboutOpen(h, about)
      && (code == QueueOverflow ==> about.Some?)
      && (code == NoSpeech ==> about.Some? && NoSpeechIn(h) == about)
  }

  predicate Admissible(contract: Contract, h: seq<Entry>, c: Call) {
    match c
    case Input(u, _) => IsOpen(h) && !IsClosed(h) && u !in Ended(h) && (u in Open(h) || |Open(h)| < 64)
    case EndOfUtterance(u, _) => IsOpen(h) && !IsClosed(h) && u in Open(h)
    case CancelRequested(u) => IsOpen(h) && !IsClosed(h) && u in Open(h)
    case DebugText(_) => true
    case Receive(e, now) =>
      && !IsClosed(h) && Addressed(contract, e) && InOrder(h, e)
      && if Bound(h, e) then AnswersBound(h, e) else Sayable(contract, h, e, now)
  }

  // ---- What one event leaves behind ----

  /** What the validator remembers of an event, given only its verdict. */
  ghost predicate Marks(v: V.Validator, e: Event, r: V.Checked) {
    var (v', took) := (r.validator, r.verdict.Accepted?);
    var (counts, ends) := (took || V.Late(r), took && e.UtteranceFinal?);
    && v'.contract == v.contract && v'.debugText == v.debugText
    && v'.isOpen == (v.isOpen || (took && e.SessionOpened?)) && v'.closed == (took && e.SessionClosed?)
    && v'.capture == (if ends then v.capture - {e.utterance} else v.capture)
    && v'.complete == (if ends then v.complete - {e.utterance} else v.complete)
    && v'.terminal == (if ends then v.terminal + {e.utterance} else v.terminal)
    && v'.cancelPending == (if ends then v.cancelPending - {e.utterance} else v.cancelPending)
    && v'.wire == (if ends then v.wire - {e.utterance}
                   else if counts && e.AudioDelta? then v.wire[e.utterance := e.audioSequence] else v.wire)
    && v'.playable == (if ends then v.playable - {e.utterance}
                       else if took && e.AudioDelta? then v.playable[e.utterance := e.audioSequence] else v.playable)
    && v'.pendingOverflow == AwaitedAfter(v.pendingOverflow, e, took, QueueOverflow)
    && v'.pendingNoSpeech == AwaitedAfter(v.pendingNoSpeech, e, took, NoSpeech)
  }

  function AwaitedAfter(awaited: Option<Uuid>, e: Event, took: bool, code: ErrorCode): Option<Uuid> {
    if took && e.Error? && e.code == code then e.about
    else if took && e.UtteranceFinal? && e.outcome.Dropped? && awaited == Some(e.utterance) then None
    else awaited
  }

  predicate Full(r: V.Checked) {
    r.verdict == V.Rejected(V.TerminalCapacityExceeded)
  }

  lemma RefusedMarks(v: V.Validator, v1: V.Validator, e: Event, error: V.ValidationError)
    requires !v.closed && v1 == v.(pendingNoSpeechLatency := v1.pendingNoSpeechLatency)
    requires error !in {V.ExpiredAudio, V.CancelledAudio}
    ensures Marks(v, e, V.Reject(v1, error))
  {}

  lemma RemarkMarks(v: V.Validator, v1: V.Validator, e: Event)
    requires !v.closed && !e.UtteranceFinal? && !e.AudioDelta?
    requires v1 == v.(pendingNoSpeechLatency := v1.pendingNoSpeechLatency, pendingOverflow := v1.pendingOverflow,
                      pendingNoSpeech := v1.pendingNoSpeech, isOpen := v.isOpen || e.SessionOpened?,
                      closed := e.SessionClosed?)
    requires v1.pendingOverflow == AwaitedAfter(v.pendingOverflow, e, true, QueueOverflow)
    requires v1.pendingNoSpeech == AwaitedAfter(v.pendingNoSpeech, e, true, NoSpeech)
    ensures Marks(v, e, V.Accept(v1))
  {}

  lemma LateMarks(v: V.Validator, v1: V.Validator, e: Event, error: V.ValidationError)
    requires !v.closed && v1 == v.(pendingNoSpeechLatency := v1.pendingNoSpeechLatency)
    requires e.AudioDelta? && error in {V.ExpiredAudio, V.CancelledAudio}
    ensures Marks(v, e, V.Reject(V.Received(v1, e), error))
  {}

  lemma PlayedMarks(v: V.Validator, v1: V.Validator, e: Event)
    requires !v.closed && v1 == v.(pendingNoSpeechLatency := v1.pendingNoSpeechLatency) && e.AudioDelta?
    ensures Marks(v, e, V.Accept(V.Received(v1, e).(playable := v1.playable[e.utterance := e.audioSequence])))
  {}

  /** The books of a validator apart from what it awaits. */
  ghost predicate ButAwaited(v: V.Validator, v1: V.Validator) {
    v1 == v.(pendingNoSpeechLatency := v1.pendingNoSpeechLatency, pendingOverflow := v1.pendingOverflow,
             pendingNoSpeech := v1.pendingNoSpeech, cancelPending := v1.cancelPending)
  }

  lemma EndMarks(v: V.Validator, v1: V.Validator, e: Event)
    requires !v.closed && e.UtteranceFinal? && ButAwaited(v, v1)
    requires v1.cancelPending - {e.utterance} == v.cancelPending - {e.utterance}
    requires v1.pendingOverflow == AwaitedAfter(v.pendingOverflow, e, true, QueueOverflow)
    requires v1.pendingNoSpeech == AwaitedAfter(v.pendingNoSpeech, e, true, NoSpeech)
    ensures var r := V.Terminalize(v1, e.utterance); !Full(r) ==> Marks(v, e, r)
  {}

  lemma CancelMarks(v: V.Validator, e: Event, u: Uuid)
    requires !v.closed && e.Subject() == Some(u)
    ensures var r := V.CheckAfterCancel(v, e, u); !Full(r) ==> Marks(v, e, r)
  {
    hide V.WireAudioError, V.Terminalize, Marks;
    RefusedMarks(v, v, e, V.ExpectedCancelledTerminal);
    if e.AudioDelta? {
      PlainWireError(v, e);
      LateMarks(v, v, e, V.CancelledAudio);
      if V.WireAudioError(v, e).Some? {
        RefusedMarks(v, v, e, V.WireAudioError(v, e).value);
      }
    } else if e.UtteranceFinal? && e.outcome == Cancelled {
      EndMarks(v, v.(cancelPending := v.cancelPending - {u}), e);
    }
  }

  lemma PlainWireError(v: V.Validator, e: Event)
    requires e.AudioDelta?
    ensures V.WireAudioError(v, e) !in {Some(V.ExpiredAudio), Some(V.CancelledAudio)}
  {
    hide PcmFormat.FrameBytes;
  }

  lemma AwaitedMarks(v: V.Validator, e: Event)
    requires !v.closed && (v.pendingOverflow.None? || v.pendingNoSpeech.None?)
    ensures v.pendingOverflow.Some? ==>
              var r := V.OverflowTerminal(v, e, v.pendingOverflow.value); !Full(r) ==> Marks(v, e, r)
    ensures v.pendingNoSpeech.Some? ==>
              var r := V.NoSpeechTerminal(v, e, v.pendingNoSpeech.value); !Full(r) ==> Marks(v, e, r)
  {
    hide V.Terminalize, Marks;
    RefusedMarks(v, v, e, V.ExpectedOverflowTerminal);
    RefusedMarks(v, v, e, V.ExpectedNoSpeechTerminal);
    if e.UtteranceFinal? && e.outcome == Dropped && Some(e.utterance) == v.pendingOverflow {
      EndMarks(v, v.(pendingOverflow := None), e);
    } else if e.UtteranceFinal? && e.outcome == Dropped && Some(e.utterance) == v.pendingNoSpeech {
      EndMarks(v, v.(pendingNoSpeech := None), e);
    }
  }

  /** The note about no speech is kept apart. */
  ghost predicate SaidMarks(v: V.Validator, v1: V.Validator, e: Event, now: nat) {
    var r := V.CheckSaid(v1, e, now); !Full(r) ==> Marks(v, e, r)
  }

  lemma AudioMarks(v: V.Validator, v1: V.Validator, e: Event, now: nat)
    requires !v.closed && v1 == v.(pendingNoSpeechLatency := v1.pendingNoSpeechLatency) && e.AudioDelta?
    ensures SaidMarks(v, v1, e, now)
  {
    hide V.WireAudioError, V.TooLate, Marks, V.SameBooks, V.Received;
    PlainWireError(v1, e);
    LateMarks(v, v1, e, V.ExpiredAudio);
    PlayedMarks(v, v1, e);
    if V.ActiveError(v1, e.utterance).Some? {
      RefusedMarks(v, v1, e, V.ActiveError(v1, e.utterance).value);
    } else if V.WireAudioError(v1, e).Some? {
      RefusedMarks(v, v1, e, V.WireAudioError(v1, e).value);
    }
  }

  lemma FinalMarks(v: V.Validator, v1: V.Validator, e: Event, now: nat)
    requires !v.closed && v1 == v.(pendingNoSpeechLatency := v1.pendingNoSpeechLatency) && e.UtteranceFinal?
    requires v.pendingOverflow.None? && v.pendingNoSpeech.None?
    ensures SaidMarks(v, v1, e, now)
  {
    hide V.Terminalize, Marks;
    EndMarks(v, v1, e);
    var r := V.CheckFinal(v1, e);
    if r.verdict.Rejected? && r.validator == v1 && !V.Late(r) {
      RefusedMarks(v, v1, e, r.verdict.error);
    }
  }

  lemma ErrorMarks(v: V.Validator, v1: V.Validator, e: Event, now: nat)
    requires !v.closed && v1 == v.(pendingNoSpeechLatency := v1.pendingNoSpeechLatency)
    requires v.pendingOverflow.None? && v.pendingNoSpeech.None? && e.Error?
    ensures SaidMarks(v, v1, e, now)
  {
    hide V.SameBooks, V.SameNumbers, Marks;
    var r := V.CheckError(v1, e);
    if r.verdict.Accepted? {
      RemarkMarks(v, r.validator, e);
    } else {
      RefusedMarks(v, v1, e, r.verdict.error);
    }
  }

  /** A remark is refused with nothing remembered, or taken. */
  lemma OtherMarks(v: V.Validator, v1: V.Validator, e: Event, now: nat)
    requires !v.closed && v1 == v.(pendingNoSpeechLatency := v1.pendingNoSpeechLatency)
    requires v.pendingOverflow.None? && v.pendingNoSpeech.None? && !e.AudioDelta? && !e.UtteranceFinal? && !e.Error?
    ensures SaidMarks(v, v1, e, now)
  {
    hide V.SameBooks, V.SameNumbers, Marks;
    var r := V.CheckSaid(v1, e, now);
    if r.verdict.Accepted? {
      RemarkMarks(v, r.validator, e);
    } else {
      RefusedMarks(v, v1, e, r.verdict.error);
    }
  }

  /** An event leaves exactly these marks, unless there was no room for one more end. */
  lemma KindMarks(v: V.Validator, e: Event, now: nat)
    requires !v.closed && (v.pendingOverflow.None? || v.pendingNoSpeech.None?)
    ensures var r := V.CheckKind(v, e, now); !Full(r) ==> Marks(v, e, r)
  {
    hide Marks, V.CheckAfterCancel, V.OverflowTerminal, V.NoSpeechTerminal, V.CheckSaid;
    var v1 := if e.Latency? || (e.Error? && e.code.NoSpeech?) then v else v.(pendingNoSpeechLatency := None);
    if e.Subject().Some? && e.Subject().value in v.cancelPending {
      CancelMarks(v, e, e.Subject().value);
    } else if v.pendingOverflow.Some? || v.pendingNoSpeech.Some? {
      AwaitedMarks(v, e);
    } else if e.AudioDelta? {
      AudioMarks(v, v1, e, now);
    } else if e.UtteranceFinal? {
      FinalMarks(v, v1, e, now);
    } else if e.Error? {
      ErrorMarks(v, v1, e, now);
    } else {
      OtherMarks(v, v1, e, now);
    }
  }

  /** The note about no speech after an event was read. */
  function NoteAfter(v: V.Validator, e: Event, took: bool): Option<Uuid> {
    if (e.Subject().Some? && e.Subject().value in v.cancelPending) || v.pendingOverflow.Some? || v.pendingNoSpeech.Some?
    then v.pendingNoSpeechLatency
    else
      match e
      case Latency(_, _, about, _, _, _, _, _) =>
        if !took then v.pendingNoSpeechLatency else if HeardNothing(e) then about else None
      case Error(_, _, _, code) => if code.NoSpeech? && !took then v.pendingNoSpeechLatency else None
      case _ => None
  }

  /** The number and the note are as they were. */
  predicate SameNote(v: V.Validator, r: V.Checked) {
    r.validator.lastSequence == v.lastSequence && r.validator.pendingNoSpeechLatency == v.pendingNoSpeechLatency
  }

  lemma TerminalizeNote(v: V.Validator, u: Uuid)
    ensures SameNote(v, V.Terminalize(v, u))
  {}

  lemma EndNote(v: V.Validator, e: Event, u: Uuid)
    ensures SameNote(v, V.CheckAfterCancel(v, e, u))
    ensures SameNote(v, V.OverflowTerminal(v, e, u)) && SameNote(v, V.NoSpeechTerminal(v, e, u))
  {
    hide V.Terminalize, V.WireAudioError;
    TerminalizeNote(v.(cancelPending := v.cancelPending - {u}), u);
    if e.UtteranceFinal? {
      TerminalizeNote(v.(pendingOverflow := None), e.utterance);
      TerminalizeNote(v.(pendingNoSpeech := None), e.utterance);
    }
  }

  lemma SaidNote(v: V.Validator, e: Event, now: nat)
    requires !e.Latency? && !(e.Error? && e.code.NoSpeech?)
    ensures SameNote(v, V.CheckSaid(v, e, now))
  {
    hide V.SameBooks, V.SameNumbers, V.WireAudioError, V.TooLate, V.Terminalize;
    if e.UtteranceFinal? {
      TerminalizeNote(v, e.utterance);
    }
  }

  lemma KindNote(v: V.Validator, e: Event, now: nat)
    ensures var r := V.CheckKind(v, e, now);
            r.validator.pendingNoSpeechLatency == NoteAfter(v, e, r.verdict.Accepted?)
            && r.validator.lastSequence == v.lastSequence
  {
    hide V.CheckAfterCancel, V.OverflowTerminal, V.NoSpeechTerminal, V.CheckSaid, V.SameBooks, V.SameNumbers;
    if e.Subject().Some? {
      EndNote(v, e, e.Subject().value);
    }
    if v.pendingOverflow.Some? {
      EndNote(v, e, v.pendingOverflow.value);
    } else if v.pendingNoSpeech.Some? {
      EndNote(v, e, v.pendingNoSpeech.value);
    }
    if !e.Latency? && !(e.Error? && e.code.NoSpeech?) {
      SaidNote(v.(pendingNoSpeechLatency := None), e, now);
    } else {
      NotedNote(v, e, now);
    }
  }

  /** A latency or a no-speech error, read for what it says. */
  lemma NotedNote(v: V.Validator, e: Event, now: nat)
    requires e.Latency? || (e.Error? && e.code.NoSpeech?)
    ensures var r := V.CheckSaid(v, e, now);
            && r.validator.lastSequence == v.lastSequence
            && r.validator.pendingNoSpeechLatency ==
                 (if r.verdict.Rejected? then v.pendingNoSpeechLatency
                  else if e.Latency? && HeardNothing(e) then e.about else None)
  {
    hide V.SameBooks, V.SameNumbers, V.ActiveError;
  }

  // ---- What is refused for its address or number ----

  predicate Misaddressed(error: V.ValidationError) {
    error in {V.SessionTerminal, V.OpenRequired, V.DuplicateOpen, V.SessionMismatch, V.DirectionMismatch,
              V.StreamMismatch, V.SequenceGap, V.DuplicateSequence, V.StaleSequence}
  }

  predicate ReadBy(r: V.Checked) {
    r.verdict.Rejected? ==> !Misaddressed(r.verdict.error)
  }

  lemma EndRead(v: V.Validator, e: Event, u: Uuid)
    ensures ReadBy(V.CheckAfterCancel(v, e, u))
    ensures ReadBy(V.OverflowTerminal(v, e, u)) && ReadBy(V.NoSpeechTerminal(v, e, u))
  {
    hide PcmFormat.FrameBytes;
  }

  lemma SaidRead(v: V.Validator, e: Event, now: nat)
    ensures ReadBy(V.CheckSaid(v, e, now))
  {
    hide V.SameBooks, V.SameNumbers, V.TooLate, PcmFormat.FrameBytes;
  }

  lemma KindRead(v: V.Validator, e: Event, now: nat)
    ensures ReadBy(V.CheckKind(v, e, now))
  {
    hide V.CheckAfterCancel, V.OverflowTerminal, V.NoSpeechTerminal, V.CheckSaid;
    SaidRead(v, e, now);
    SaidRead(v.(pendingNoSpeechLatency := None), e, now);
    if e.Subject().Some? {
      EndRead(v, e, e.Subject().value);
    }
    if v.pendingOverflow.Some? {
      EndRead(v, e, v.pendingOverflow.value);
    } else if v.pendingNoSpeech.Some? {
      EndRead(v, e, v.pendingNoSpeech.value);
    }
  }

  /** An event that is addressed and numbered well is read for what it says. */
  lemma Envelope(v: V.Validator, e: Event)
    ensures V.EnvelopeError(v, e).None? <==>
              && !v.closed && (e.SessionOpened? <==> !v.isOpen) && Addressed(v.contract, e)
              && (if v.lastSequence.None? then e.header.sequence == 1 else e.header.sequence > v.lastSequence.value)
  {}

  // ---- The validator's memory is its history ----

  ghost predicate MeantOf(v: V.Validator, h: seq<Entry>, u: Uuid) {
    && Lookup(v.complete, u) == EndTime(h, u)
    && Lookup(v.wire, u) == LastOf(Heard(h, u))
    && Lookup(v.playable, u) == LastPlayed(h, u)
  }

  ghost predicate MeantNow(v: V.Validator, h: seq<Entry>) {
    && v.isOpen == IsOpen(h) && v.lastSequence == LastNumber(h)
    && v.capture.Keys == Open(h) && v.terminal == Ended(h) && v.cancelPending == Cancelling(h)
    && v.pendingOverflow == Awaited(h, QueueOverflow) && v.pendingNoSpeech == Awaited(h, NoSpeech)
    && v.pendingNoSpeechLatency == NoSpeechIn(h)
  }

  /** Every field says what the history says, until the session is closed. */
  ghost predicate Meant(v: V.Validator, contract: Contract, h: seq<Entry>) {
    && v.contract == contract && v.closed == IsClosed(h) && v.debugText == DebugText(contract, h)
    && (!v.closed ==> MeantNow(v, h) && forall u :: MeantOf(v, h, u))
  }

  lemma OneMore(h: seq<Entry>, x: Entry)
    ensures Before(h + [x]) == h && Latest(h + [x]) == x
  {}

  /** How a call that is told, or an event that is not taken, is read. */
  lemma OneTold(h: seq<Entry>, x: Entry)
    requires !Took(x)
    ensures var more := h + [x];
            && IsOpen(more) == IsOpen(h)
            && IsClosed(more) == (IsClosed(h) || x.verdict == V.Rejected(V.TerminalCapacityExceeded))
            && LastNumber(more) == (if Counts(x) then Some(x.call.event.header.sequence) else LastNumber(h))
            && Open(more) ==
                 (if x.call.Input? && x.verdict.Accepted? then Open(h) + {x.call.utterance} else Open(h))
            && Ended(more) == Ended(h)
            && Cancelling(more) ==
                 (if x.call.CancelRequested? && x.verdict.Accepted? then Cancelling(h) + {x.call.utterance}
                  else Cancelling(h))
            && (forall code :: Awaited(more, code) == Awaited(h, code))
            && (!Read(x) ==> NoSpeechIn(more) == NoSpeechIn(h))
  {
    OneMore(h, x);
  }

  /** How an event that is taken is read. */
  lemma OneTaken(h: seq<Entry>, x: Entry)
    requires Took(x)
    ensures var (more, e) := (h + [x], x.call.event);
            && IsOpen(more) == (IsOpen(h) || e.SessionOpened?)
            && IsClosed(more) == (IsClosed(h) || e.SessionClosed?)
            && LastNumber(more) == Some(e.header.sequence)
            && Open(more) == (if e.UtteranceFinal? then Open(h) - {e.utterance} else Open(h))
            && Ended(more) == (if e.UtteranceFinal? then Ended(h) + {e.utterance} else Ended(h))
            && Cancelling(more) == (if e.UtteranceFinal? then Cancelling(h) - {e.utterance} else Cancelling(h))
            && (forall code :: Awaited(more, code) == AwaitedAfter(Awaited(h, code), e, true, code))
  {
    OneMore(h, x);
  }

  /** What one more call says of one utterance. */
  lemma OneMoreOf(h: seq<Entry>, x: Entry, u: Uuid)
    ensures var (more, t) := (h + [x], EndTime(h, u));
            && EndTime(more, u) ==
                 (if Ends(x, u) then None
                  else if x.verdict.Accepted? && x.call.Input? && x.call.utterance == u && t.None?
                  then Some(x.call.captureNs)
                  else if x.verdict.Accepted? && x.call.EndOfUtterance? && x.call.utterance == u
                  then Some(x.call.captureNs)
                  else t)
            && Heard(more, u) ==
                 (if Ends(x, u) then 0
                  else if Counts(x) && x.call.event.AudioDelta? && x.call.event.utterance == u then Heard(h, u) + 1
                  else Heard(h, u))
            && LastPlayed(more, u) ==
                 (if Ends(x, u) then None
                  else if Took(x) && x.call.event.AudioDelta? && x.call.event.utterance == u
                  then Some(x.call.event.audioSequence)
                  else LastPlayed(h, u))
  {
    OneMore(h, x);
  }

  lemma DebugMore(contract: Contract, h: seq<Entry>, x: Entry)
    ensures DebugText(contract, h + [x]) == if x.call.DebugText? then x.call.enabled else DebugText(contract, h)
  {
    OneMore(h, x);
  }

  /** What the validator remembers of what it is told. */
  ghost predicate Notes(v: V.Validator, c: Call, r: V.Checked) {
    var (v', took) := (r.validator, r.verdict.Accepted?);
    && v' == v.(capture := v'.capture, complete := v'.complete, cancelPending := v'.cancelPending,
                debugText := v'.debugText)
    && v'.debugText == (if c.DebugText? then c.enabled else v.debugText)
    && v'.capture.Keys == (if c.Input? && took then v.capture.Keys + {c.utterance} else v.capture.Keys)
    && v'.cancelPending ==
         (if c.CancelRequested? && took then v.cancelPending + {c.utterance} else v.cancelPending)
    && (took && c.EndOfUtterance? ==> v'.complete == v.complete[c.utterance := c.captureNs])
    && (took && c.Input? && c.utterance !in v.complete ==> v'.complete == v.complete[c.utterance := c.captureNs])
    && (!(took && c.EndOfUtterance?) && !(took && c.Input? && c.utterance !in v.complete) ==>
          v'.complete == v.complete)
    && !Full(r)
  }

  lemma ToldNotes(v: V.Validator, c: Call)
    requires !c.Receive?
    ensures Notes(v, c, After(v, c))
  {
    hide V.Validate;
    match c
    case Input(u, t) => InputNotes(v, u, t);
    case EndOfUtterance(_, _) => hide V.RecordInput;
    case _ => hide V.RecordInput, V.RecordEndOfUtterance;
  }

  lemma InputNotes(v: V.Validator, u: Uuid, t: nat)
    ensures Notes(v, Input(u, t), V.RecordInput(v, u, t))
  {
    var r := V.RecordInput(v, u, t);
    assert r.verdict.Accepted? ==> r.validator.capture.Keys == v.capture.Keys + {u};
  }

  lemma NotedOf(v: V.Validator, h: seq<Entry>, c: Call, r: V.Checked, u: Uuid)
    requires MeantOf(v, h, u) && !c.Receive? && Notes(v, c, r)
    ensures MeantOf(r.validator, h + [Entry(c, r.verdict)], u)
  {
    hide EndTime, Heard, LastPlayed;
    OneMoreOf(h, Entry(c, r.verdict), u);
  }

  lemma NotedNow(v: V.Validator, h: seq<Entry>, c: Call, r: V.Checked)
    requires MeantNow(v, h) && !c.Receive? && Notes(v, c, r)
    ensures MeantNow(r.validator, h + [Entry(c, r.verdict)])
  {
    hide IsOpen, IsClosed, LastNumber, Open, Ended, Cancelling, Awaited, NoSpeechIn;
    OneTold(h, Entry(c, r.verdict));
  }

  /** What is told to the validator. */
  lemma ToldMeant(v: V.Validator, contract: Contract, h: seq<Entry>, c: Call)
    requires Meant(v, contract, h) && !c.Receive?
    ensures Meant(After(v, c).validator, contract, h + [Entry(c, After(v, c).verdict)])
  {
    ToldNotes(v, c);
    hide MeantNow, MeantOf, After, IsClosed, DebugText;
    var r := After(v, c);
    OneTold(h, Entry(c, r.verdict));
    DebugMore(contract, h, Entry(c, r.verdict));
    if !v.closed {
      NotedNow(v, h, c, r);
      forall u ensures MeantOf(r.validator, h + [Entry(c, r.verdict)], u) {
        NotedOf(v, h, c, r, u);
      }
    }
  }

  /** An event refused for its address or number. */
  lemma UnreadMeant(v: V.Validator, contract: Contract, h: seq<Entry>, e: Event, now: nat)
    requires Meant(v, contract, h) && V.EnvelopeError(v, e).Some?
    ensures var r := V.Validate(v, e, now);
            Meant(r.validator, contract, h + [Entry(Receive(e, now), r.verdict)])
  {
    hide IsOpen, IsClosed, LastNumber, Open, Ended, Cancelling, Awaited, NoSpeechIn, EndTime, Heard, LastPlayed,
         DebugText, V.EnvelopeError;
    var x := Entry(Receive(e, now), V.Validate(v, e, now).verdict);
    OneTold(h, x);
    DebugMore(contract, h, x);
    if !v.closed {
      forall u ensures MeantOf(v, h + [x], u) {
        assert MeantOf(v, h, u);
        OneMoreOf(h, x, u);
      }
    }
  }

  lemma ReadNow(v: V.Validator, h: seq<Entry>, x: Entry, r: V.Checked)
    requires MeantNow(v, h) && x.call.Receive? && x.verdict == r.verdict && Marks(v, x.call.event, r) && Read(x)
    requires r.validator.lastSequence == if Counts(x) then Some(x.call.event.header.sequence) else v.lastSequence
    requires r.validator.pendingNoSpeechLatency == NoteAfter(v, x.call.event, Took(x))
    ensures MeantNow(r.validator, h + [x])
  {
    var e := x.call.event;
    assert (v.capture - (if e.UtteranceFinal? then {e.utterance} else {})).Keys ==
           v.capture.Keys - (if e.UtteranceFinal? then {e.utterance} else {});
    NoteMeant(v, h, x);
    hide IsOpen, IsClosed, LastNumber, Open, Ended, Cancelling, Awaited, NoSpeechIn, NoteAfter;
    if Took(x) {
      OneTaken(h, x);
    } else {
      OneTold(h, x);
    }
  }

  lemma NoteMeant(v: V.Validator, h: seq<Entry>, x: Entry)
    requires MeantNow(v, h) && Read(x)
    ensures NoSpeechIn(h + [x]) == NoteAfter(v, x.call.event, Took(x))
  {
    hide IsOpen, IsClosed, LastNumber, Open, Ended, Cancelling, Awaited;
    OneMore(h, x);
  }

  lemma ReadOf(v: V.Validator, h: seq<Entry>, x: Entry, r: V.Checked, u: Uuid)
    requires MeantOf(v, h, u) && x.call.Receive? && x.verdict == r.verdict && Marks(v, x.call.event, r)
    requires Counts(x) && x.call.event.AudioDelta? ==>
               LastOf(x.call.event.audioSequence) == Lookup(v.wire, x.call.event.utterance)
    ensures MeantOf(r.validator, h + [x], u)
  {
    hide EndTime, Heard, LastPlayed;
    OneMoreOf(h, x, u);
  }

  lemma AudioCameInOrder(v: V.Validator, e: Event, now: nat)
    requires e.AudioDelta?
    ensures var r := V.CheckKind(v, e, now);
            r.verdict.Accepted? || V.Late(r) ==> LastOf(e.audioSequence) == Lookup(v.wire, e.utterance)
  {
    hide PcmFormat.FrameBytes, V.TooLate, V.SameBooks, V.Received;
  }

  /** An event that was read. */
  lemma ReadMeant(v: V.Validator, contract: Contract, h: seq<Entry>, e: Event, now: nat)
    requires Meant(v, contract, h) && V.EnvelopeError(v, e).None? && Tidy(v)
    ensures var r := V.Validate(v, e, now);
            Meant(r.validator, contract, h + [Entry(Receive(e, now), r.verdict)])
  {
    var x := Entry(Receive(e, now), V.Validate(v, e, now).verdict);
    Envelope(v, e);
    KindMarks(v, e, now);
    KindNote(v, e, now);
    KindRead(v, e, now);
    if e.AudioDelta? {
      AudioCameInOrder(v, e, now);
    }
    K.ValidateBooked(v, e, now);
    hide V.CheckKind, V.EnvelopeError, MeantNow, MeantOf, IsClosed, DebugText, Addressed, Tidy;
    var r := V.Validate(v, e, now);
    DebugMore(contract, h, x);
    ClosedMore(h, x);
    NumberedMarks(v, e, V.CheckKind(v, e, now), r);
    hide V.Validate, Marks;
    if !Full(r) {
      ReadNow(v, h, x, r);
      forall u ensures MeantOf(r.validator, h + [x], u) {
        ReadOf(v, h, x, r, u);
      }
    }
  }

  lemma ClosedMore(h: seq<Entry>, x: Entry)
    ensures IsClosed(h + [x]) == (|| IsClosed(h) || (Took(x) && x.call.event.SessionClosed?)
                                  || x.verdict == V.Rejected(V.TerminalCapacityExceeded))
  {
    OneMore(h, x);
  }

  lemma NumberedMarks(v: V.Validator, e: Event, c: V.Checked, r: V.Checked)
    requires !Full(c) ==> Marks(v, e, c)
    requires r.verdict == c.verdict && r.validator == c.validator.(lastSequence := r.validator.lastSequence)
    ensures !Full(r) ==> Marks(v, e, r)
    ensures !Full(r) ==> r.validator.contract == v.contract && r.validator.debugText == v.debugText
    ensures !Full(r) ==> r.validator.closed == (r.verdict.Accepted? && e.SessionClosed?)
  {}

  /** Over every run the validator remembers what its history says. */
  lemma {:induction false} RunMeant(contract: Contract, calls: seq<Call>)
    ensures Meant(Run(contract, calls), contract, History(contract, calls))
  {
    if calls == [] {
      FreshMeant(contract);
    } else {
      var (earlier, c) := (calls[..|calls| - 1], calls[|calls| - 1]);
      RunMeant(contract, earlier);
      RunTidy(contract, earlier);
      hide Meant, Tidy, V.EnvelopeError, V.Validate;
      var (v, h) := (Run(contract, earlier), History(contract, earlier));
      if !c.Receive? {
        ToldMeant(v, contract, h, c);
      } else if V.EnvelopeError(v, c.event).Some? {
        UnreadMeant(v, contract, h, c.event, c.now);
      } else {
        ReadMeant(v, contract, h, c.event, c.now);
      }
    }
  }

  lemma FreshMeant(contract: Contract)
    ensures Meant(V.Fresh(contract), contract, [])
  {}

  // ---- The verdict is the history's ----

  lemma EndVerdict(v: V.Validator, contract: Contract, h: seq<Entry>, e: Event, now: nat)
    requires Meant(v, contract, h) && !v.closed && Tidy(v) && Bound(h, e)
    ensures V.CheckKind(v, e, now).verdict.Accepted? <==> AnswersBound(h, e)
  {
    hide IsOpen, IsClosed, LastNumber, Open, Ended, Cancelling, Awaited, NoSpeechIn, EndTime, Heard, LastPlayed,
         DebugText, V.CheckSaid, V.WireAudioError, K.Sound;
    if e.UtteranceFinal? {
      assert MeantOf(v, h, e.utterance);
    }
  }

  lemma AudioVerdict(v: V.Validator, contract: Contract, h: seq<Entry>, e: Event, now: nat)
    requires Meant(v, contract, h) && !v.closed && Tidy(v) && e.AudioDelta?
    ensures V.ActiveError(v, e.utterance).None? && V.WireAudioError(v, e).None? <==> NextAudio(contract, h, e)
    ensures (e.utterance !in v.playable && e.utterance in v.complete && V.TooLate(v, v.complete[e.utterance], now)) <==>
              Stale(contract, h, e, now)
  {
    hide IsOpen, IsClosed, LastNumber, Open, Ended, Cancelling, Awaited, NoSpeechIn, EndTime, Heard, LastPlayed,
         DebugText, PcmFormat.FrameBytes;
    assert MeantOf(v, h, e.utterance);
  }

  lemma SaidVerdict(v: V.Validator, contract: Contract, h: seq<Entry>, e: Event, now: nat)
    requires Meant(v, contract, h) && !v.closed && Tidy(v) && !Bound(h, e)
    ensures V.CheckKind(v, e, now).verdict.Accepted? <==> Sayable(contract, h, e, now)
  {
    hide IsOpen, IsClosed, LastNumber, Open, Ended, Cancelling, Awaited, NoSpeechIn, EndTime, Heard, LastPlayed,
         DebugText, V.SameBooks, V.SameNumbers, V.CheckAfterCancel, V.OverflowTerminal, V.NoSpeechTerminal;
    if e.AudioDelta? {
      AudioVerdict(v, contract, h, e, now);
      hide V.WireAudioError, V.TooLate, NextAudio, Stale;
      WireApart(v, e);
    } else if e.UtteranceFinal? {
      assert MeantOf(v, h, e.utterance);
    }
  }

  lemma WireApart(v: V.Validator, e: Event)
    requires e.AudioDelta?
    ensures V.WireAudioError(v.(pendingNoSpeechLatency := None), e) == V.WireAudioError(v, e)
    ensures forall t, now :: V.TooLate(v.(pendingNoSpeechLatency := None), t, now) == V.TooLate(v, t, now)
  {}

  lemma ReceiveVerdict(v: V.Validator, contract: Contract, h: seq<Entry>, e: Event, now: nat)
    requires Meant(v, contract, h) && Tidy(v)
    ensures V.Validate(v, e, now).verdict.Accepted? <==> Admissible(contract, h, Receive(e, now))
  {
    hide IsOpen, IsClosed, LastNumber, MeantOf, Bound, AnswersBound, Sayable, V.CheckKind, V.EnvelopeError, Addressed,
         Open, Ended, Cancelling, Awaited, NoSpeechIn, DebugText, Tidy;
    Envelope(v, e);
    if !v.closed {
      if Bound(h, e) {
        EndVerdict(v, contract, h, e, now);
      } else {
        SaidVerdict(v, contract, h, e, now);
      }
    }
  }

  lemma ToldVerdict(v: V.Validator, contract: Contract, h: seq<Entry>, c: Call)
    requires Meant(v, contract, h) && Tidy(v) && !c.Receive?
    ensures After(v, c).verdict.Accepted? <==> Admissible(contract, h, c)
  {
    hide IsOpen, IsClosed, LastNumber, Open, Ended, Cancelling, Awaited, NoSpeechIn, MeantOf, DebugText, V.Validate;
    assert |v.capture.Keys| == |v.capture|;
    assert v.complete.Keys == v.capture.Keys;
    if c.EndOfUtterance? {
      assert c.utterance in v.complete <==> c.utterance in v.complete.Keys;
    }
  }

  /** Over every run, the next call is accepted exactly when the calls and verdicts so far
      allow it; the validator needs no more memory than that. */
  lemma AcceptedIff(contract: Contract, calls: seq<Call>, c: Call)
    ensures After(Run(contract, calls), c).verdict.Accepted? <==> Admissible(contract, History(contract, calls), c)
  {
    hide Run, History, Meant, Tidy, Admissible, V.Validate;
    RunMeant(contract, calls);
    RunTidy(contract, calls);
    if c.Receive? {
      ReceiveVerdict(Run(contract, calls), contract, History(contract, calls), c.event, c.now);
    } else {
      ToldVerdict(Run(contract, calls), contract, History(contract, calls), c);
    }
  }

  lemma LateVerdict(v: V.Validator, contract: Contract, h: seq<Entry>, e: Event, now: nat)
    requires Meant(v, contract, h) && !v.closed && Tidy(v)
    ensures V.CheckKind(v, e, now).verdict == V.Rejected(V.ExpiredAudio) <==>
              e.AudioDelta? && !Bound(h, e) && NextAudio(contract, h, e) && Stale(contract, h, e, now)
    ensures V.CheckKind(v, e, now).verdict == V.Rejected(V.CancelledAudio) <==>
              e.AudioDelta? && e.utterance in Cancelling(h) && NextAudio(contract, h, e)
  {
    hide IsOpen, IsClosed, LastNumber, Open, Ended, Cancelling, Awaited, NoSpeechIn, EndTime, Heard, LastPlayed,
         DebugText, V.SameBooks, V.SameNumbers;
    if e.AudioDelta? {
      AudioVerdict(v, contract, h, e, now);
      hide V.WireAudioError, V.TooLate, NextAudio, Stale, V.Received;
      WireApart(v, e);
      PlainWireError(v, e);
    } else {
      NeverLate(v, e, now);
    }
  }

  lemma NeverLate(v: V.Validator, e: Event, now: nat)
    requires !e.AudioDelta?
    ensures V.CheckKind(v, e, now).verdict !in {V.Rejected(V.ExpiredAudio), V.Rejected(V.CancelledAudio)}
  {
    hide V.SameBooks, V.SameNumbers, V.ActiveError;
    ActivePlain(v, e);
    ActivePlain(v.(pendingNoSpeechLatency := None), e);
  }

  lemma ActivePlain(v: V.Validator, e: Event)
    ensures forall u :: V.ActiveError(v, u) !in {Some(V.ExpiredAudio), Some(V.CancelledAudio)}
  {}

  /** Over every run, audio is told to be late exactly when it came in order and was stale
      before anything was played, or was of an utterance being cancelled. */
  lemma LateIff(contract: Contract, calls: seq<Call>, e: Event, now: nat)
    ensures var (h, r) := (History(contract, calls), V.Validate(Run(contract, calls), e, now).verdict);
            var heard := !IsClosed(h) && Addressed(contract, e) && InOrder(h, e) && e.AudioDelta?
                         && NextAudio(contract, h, e);
            && (r == V.Rejected(V.ExpiredAudio) <==> heard && !Bound(h, e) && Stale(contract, h, e, now))
            && (r == V.Rejected(V.CancelledAudio) <==> heard && e.utterance in Cancelling(h))
  {
    RunMeant(contract, calls);
    RunTidy(contract, calls);
    var (v, h) := (Run(contract, calls), History(contract, calls));
    hide Run, History, IsOpen, IsClosed, LastNumber, MeantOf, Bound, NextAudio, Stale, V.CheckKind, V.EnvelopeError,
         Addressed, Open, Ended, Cancelling, Awaited, NoSpeechIn, DebugText, Tidy;
    Envelope(v, e);
    if !v.closed {
      LateVerdict(v, contract, h, e, now);
    }
  }

  // ---- Numbers and addresses, over whole runs ----

  lemma EnvelopeNumber(v: V.Validator, e: Event)
    requires !v.closed && (e.SessionOpened? <==> !v.isOpen) && Addressed(v.contract, e)
    ensures V.EnvelopeError(v, e) ==
            match v.lastSequence
            case None => if e.header.sequence == 1 then None else Some(V.SequenceGap)
            case Some(n) =>
              if e.header.sequence == n then Some(V.DuplicateSequence)
              else if e.header.sequence < n then Some(V.StaleSequence) else None
  {}

  /** A well addressed event with a number used before, or passed over, is refused for that. */
  lemma NumberRefused(contract: Contract, calls: seq<Call>, e: Event, now: nat)
    requires var h := History(contract, calls);
             !IsClosed(h) && Addressed(contract, e) && (e.SessionOpened? <==> !IsOpen(h))
    ensures var (h, r) := (History(contract, calls), V.Validate(Run(contract, calls), e, now).verdict);
            var n := e.header.sequence;
            && (r == V.Rejected(V.DuplicateSequence) <==> LastNumber(h) == Some(n))
            && (r == V.Rejected(V.StaleSequence) <==> LastNumber(h).Some? && n < LastNumber(h).value)
            && (r == V.Rejected(V.SequenceGap) <==> LastNumber(h).None? && n != 1)
  {
    RunMeant(contract, calls);
    var (v, h) := (Run(contract, calls), History(contract, calls));
    hide Run, History, IsOpen, IsClosed, LastNumber, MeantOf, V.CheckKind, V.EnvelopeError, Addressed, Open, Ended,
         Cancelling, Awaited, NoSpeechIn, DebugText;
    EnvelopeNumber(v, e);
    KindRead(v, e, now);
  }

  /** Whatever counts was well addressed and came in order. */
  lemma CountedIsAddressed(contract: Contract, calls: seq<Call>, k: nat)
    requires k < |calls| && Counts(History(contract, calls)[k])
    ensures calls[k].Receive? && History(contract, calls)[k].call == calls[k]
    ensures var (h, e) := (History(contract, calls)[..k], calls[k].event);
            !IsClosed(h) && Addressed(contract, e) && InOrder(h, e)
  {
    HistoryAt(contract, calls, k);
    RunMeant(contract, calls[..k]);
    hide Run, History, IsOpen, IsClosed, LastNumber, MeantOf, V.CheckKind, V.EnvelopeError, Addressed, Open, Ended,
         Cancelling, Awaited, NoSpeechIn, DebugText;
    Envelope(Run(contract, calls[..k]), calls[k].event);
  }

  lemma {:induction false} HistoryAt(contract: Contract, calls: seq<Call>, k: nat)
    requires k < |calls|
    ensures History(contract, calls)[k] == Entry(calls[k], After(Run(contract, calls[..k]), calls[k]).verdict)
    ensures History(contract, calls)[..k] == History(contract, calls[..k])
  {
    hide Run, After;
    var earlier := calls[..|calls| - 1];
    if k < |earlier| {
      HistoryAt(contract, earlier, k);
      assert earlier[..k] == calls[..k];
      assert History(contract, calls)[..k] == History(contract, earlier)[..k];
    } else {
      assert History(contract, calls)[..k] == History(contract, earlier);
    }
  }

  lemma {:induction false} LastNumberAtLeast(contract: Contract, calls: seq<Call>, i: nat, j: nat)
    requires i < j <= |calls| && Counts(History(contract, calls)[i])
    ensures var last := LastNumber(History(contract, calls)[..j]);
            last.Some? && History(contract, calls)[i].call.event.header.sequence <= last.value
    decreases j
  {
    var h := History(contract, calls);
    assert Latest(h[..j]) == h[j - 1] && Before(h[..j]) == h[..j - 1];
    hide History;
    if i < j - 1 {
      LastNumberAtLeast(contract, calls, i, j - 1);
      if Counts(h[j - 1]) {
        CountedIsAddressed(contract, calls, j - 1);
      }
    }
  }

  /** Over every run, of two events that count the later bears the greater number. */
  lemma NumbersRise(contract: Contract, calls: seq<Call>, i: nat, j: nat)
    requires i < j < |calls| && Counts(History(contract, calls)[i]) && Counts(History(contract, calls)[j])
    ensures calls[i].Receive? && calls[j].Receive?
    ensures calls[i].event.header.sequence < calls[j].event.header.sequence
  {
    hide History;
    CountedIsAddressed(contract, calls, i);
    CountedIsAddressed(contract, calls, j);
    LastNumberAtLeast(contract, calls, i, j);
  }

  /** The first event that counts opens the session and is number 1. */
  lemma FirstOpens(contract: Contract, calls: seq<Call>, k: nat)
    requires k < |calls| && Counts(History(contract, calls)[k])
    requires forall i :: 0 <= i < k ==> !Counts(History(contract, calls)[i])
    ensures calls[k].Receive? && calls[k].event.SessionOpened? && calls[k].event.header.sequence == 1
  {
    hide History;
    CountedIsAddressed(contract, calls, k);
    NothingCounted(History(contract, calls)[..k]);
  }

  lemma {:induction false} NothingCounted(h: seq<Entry>)
    requires forall i :: 0 <= i < |h| ==> !Counts(h[i])
    ensures LastNumber(h).None? && !IsOpen(h)
  {
    if h != [] {
      NothingCounted(Before(h));
    }
  }

  /** Whatever counts bears the contract's session, direction and stream. */
  lemma CountedIsOurs(contract: Contract, calls: seq<Call>, k: nat)
    requires k < |calls| && Counts(History(contract, calls)[k])
    ensures calls[k].Receive?
    ensures var e := calls[k].event;
            && e.header.session == contract.session && e.header.direction == contract.direction
            && (e.AudioDelta? || e.TranscriptDelta? || e.TranslationDelta? || e.UtteranceFinal? || e.Latency? ==>
                  e.stream == contract.stream)
            && (e.Error? && (e.errorStream.Some? || e.about.Some?) ==> e.errorStream == Some(contract.stream))
  {
    hide History;
    CountedIsAddressed(contract, calls, k);
  }
}
