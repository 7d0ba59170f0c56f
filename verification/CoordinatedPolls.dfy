/** The daemon looks at its deadlines while a provider session runs: what is overdue is
    cancelled, and the session's answers are taken. */
module CoordinatedPolls {
  import opened Wire
  import opened EngineModel
  import opened EngineRuns
  import W = WatchdogModel
  import V = ValidatorModel
  import C = CoordinatorModel
  import K = Coupling
  import S = Simulation
  import opened CoordinatedDelivery
  import opened CoordinatedCalls

  /** The daemon asks for each of these to be cancelled, and the session answers. */
  ghost function CancelEach(inj: Injection, s: Session, c: C.Coordinator, us: seq<Uuid>, at: W.Ns): (j: Joint)
    requires Inv(s)
    ensures j.Running? ==> Inv(j.session)
    decreases |us|
  {
    if us == [] then Running(s, c)
    else
      var cancel := Cancel(c.validator.contract.direction, us[0]);
      var r := Apply(inj, s, cancel);
      if r.answer.Raised? then Raising
      else
        match Deliver(c, r.answer.events, at)
        case None => Refused
        case Some(c') => ApplyKeepsInv(inj, s, cancel); CancelEach(inj, r.session, c', us[1..], at)
  }

  ghost predicate Lists(order: seq<Uuid>, us: set<Uuid>) {
    && (forall u :: u in order <==> u in us)
    && (forall i, k :: 0 <= i < k < |order| ==> order[i] != order[k])
  }

  /** The daemon looks at the deadlines and asks for what the alarm says: the cancellations in
      the given order, if it lists them, or a close. A restart gives the session up. */
  ghost function Polled(inj: Injection, j: Joint, at: W.Ns, order: seq<Uuid>): (n: Joint)
    requires j.Running? ==> Inv(j.session)
    ensures n.Running? ==> Inv(n.session)
  {
    if !j.Running? then j
    else
      var p := C.Poll(j.coordinator, at);
      match p.outcome
      case Refused => Refused
      case Rang(alarm) =>
        match alarm
        case Cancel(us) => if Lists(order, us) then CancelEach(inj, j.session, p.coordinator, order, at) else j
        case CloseSession =>
          ApplyKeepsInv(inj, j.session, Close); Step(inj, Running(j.session, p.coordinator), Move(Close, at))
        case RestartSidecar => Raising
  }

  /** The agreement while the cancellations of some utterances have been asked for at one
      moment and are not answered yet. */
  ghost predicate Cancelling(contract: Contract, s: Session, c: C.Coordinator, us: set<Uuid>, at: W.Ns) {
    && InUse(c) && c.validator.contract == contract && c.validator.cancelPending == us
    && S.AgreeBut(s, c.validator.(cancelPending := {}), None)
    && WatchedCancelling(s, c.watchdog, us, at)
  }

  ghost predicate WatchedCancelling(s: Session, w: W.Watchdog, us: set<Uuid>, at: W.Ns) {
    && us <= s.streams.Keys
    && forall u <- s.streams ::
         && u in w.utterances
         && var phase := w.utterances[u].phase;
            if u in us then phase.CancelPending? && at <= phase.deadline
            else !phase.CancelPending? && at <= phase.deadline && (phase.CollectingInput? <==> u !in s.ended)
  }

  /** A poll of a stream in use with nothing being cancelled asks for the overdue to be
      cancelled, and for nothing else. */
  lemma PollAsks(c: C.Coordinator, at: W.Ns)
    requires InUse(c) && c.validator.cancelPending == {}
    ensures var (p, us) := (C.Poll(c, at), W.Overdue(c.watchdog, at));
            && p.outcome == C.Rang(W.Cancel(us))
            && p.coordinator.validator == c.validator.(cancelPending := us)
            && p.coordinator.watchdog == c.watchdog.(utterances := W.Swept(c.watchdog.utterances, at))
            && p.coordinator.buffers == map[]
  {
    K.DeadlinesNeverRefused(c, c.validator.contract.stream, c.validator.contract.stream, at);
    forall u <- c.watchdog.utterances ensures !c.watchdog.utterances[u].phase.CancelPending? {
      assert u !in K.Cancelling(c.watchdog);
    }
    hide K.Inv;
    assert !W.CloseDue(c.watchdog, at);
    assert {} + W.Overdue(c.watchdog, at) == W.Overdue(c.watchdog, at);
  }

  lemma PollInUse(c: C.Coordinator, at: W.Ns)
    requires InUse(c) && c.validator.cancelPending == {}
    ensures InUse(C.Poll(c, at).coordinator)
  {
    PollAsks(c, at);
    K.PollKeepsInv(c, at);
    hide K.Inv, C.Poll;
  }

  lemma SweptWatch(s: Session, w: W.Watchdog, at: W.Ns)
    requires EndsAgree(s, w) && s.streams.Keys == w.utterances.Keys
    ensures WatchedCancelling(s, w.(utterances := W.Swept(w.utterances, at)), W.Overdue(w, at), at)
  {
    assert forall u <- w.utterances :: u in w.utterances.Keys;
  }

  lemma PollMarks(contract: Contract, s: Session, c: C.Coordinator, at: W.Ns)
    requires !s.closed && Agree(contract, s, c)
    ensures var p := C.Poll(c, at);
            && p.outcome == C.Rang(W.Cancel(W.Overdue(c.watchdog, at)))
            && Cancelling(contract, s, p.coordinator, W.Overdue(c.watchdog, at), at)
  {
    assert c.validator.cancelPending == {};
    BooksOf(s, c);
    hide InUse, S.SameBooks, S.FirstHeard, C.Poll, EndsAgree, WatchedCancelling;
    PollAsks(c, at);
    PollInUse(c, at);
    assert s.streams.Keys == c.watchdog.utterances.Keys;
    SweptWatch(s, c.watchdog, at);
    assert c.validator == C.Poll(c, at).coordinator.validator.(cancelPending := {});
  }

  /** The daemon takes the one event that answers a cancellation. */
  lemma AnswerTaken(c: C.Coordinator, e: Event, at: W.Ns)
    requires InUse(c) && c.validator.contract.outputFormat.frameDurationMs <= C.MAX_RECEIVE_BUFFERED_MS
    requires e.UtteranceFinal? && Ready(c.watchdog, e, at) && S.Deliver(c.validator, [e], at).Some?
    ensures var after := Deliver(c, [e], at);
            && after.Some? && InUse(after.value)
            && after.value.validator == S.Deliver(c.validator, [e], at).value
            && after.value.validator.contract == c.validator.contract
            && after.value.watchdog.utterances == c.watchdog.utterances - {e.utterance}
  {
    hide InUse, Ready, V.Validate, Take;
    assert [e][1..] == [];
    TakenIff(c, e, at);
    TakenIs(c, e, at);
    TakenInUse(c, e, at);
    assert Deliver(Take(c, e, at).coordinator, [], at) == Some(Take(c, e, at).coordinator);
    assert S.Deliver(V.Validate(c.validator, e, at).validator, [], at) ==
           Some(V.Validate(c.validator, e, at).validator);
  }

  lemma AnswerWatched(s: Session, s': Session, w: W.Watchdog, w': W.Watchdog, us: set<Uuid>, u: Uuid, at: W.Ns)
    requires WatchedCancelling(s, w, us, at) && Ends(s, s', u) && w'.utterances == w.utterances - {u}
    ensures WatchedCancelling(s', w', us - {u}, at)
  {
    assert s'.streams.Keys == s.streams.Keys - {u};
  }

  lemma CancelEnds(s: Session, d: Direction, u: Uuid)
    requires CancelUtterance(s, d, u).answer.Events?
    ensures var r := CancelUtterance(s, d, u);
            && u in s.streams && Ends(s, r.session, u) && |r.answer.events| == 1
            && var e := r.answer.events[0]; e.UtteranceFinal? && e.utterance == u && e.outcome.Cancelled?
  {
    hide Terminate;
    var s1 := PurgeQueues(s, u);
    S.PurgedStreams(s, u);
    PurgedEnds(s, u);
    TerminateEnds(s1, s.streams[u], u, Cancelled);
    TerminateSays(s1, s.streams[u], u, Cancelled);
    hide PurgeQueues;
  }

  /** One of the cancellations is answered. */
  lemma OneAnswered(inj: Injection, contract: Contract, s: Session, c: C.Coordinator, us: set<Uuid>, u: Uuid,
        at: W.Ns)
    requires Inv(s) && Cancelling(contract, s, c, us, at) && u in us
    requires contract.outputFormat.frameDurationMs <= C.MAX_RECEIVE_BUFFERED_MS
    requires Apply(inj, s, Cancel(contract.direction, u)).answer.Events?
    ensures var r := Apply(inj, s, Cancel(contract.direction, u));
            var after := Deliver(c, r.answer.events, at);
            && after.Some? && Cancelling(contract, r.session, after.value, us - {u}, at)
            && Ends(s, r.session, u)
  {
    hide Inv, InUse, S.AgreeBut, CancelUtterance, Deliver, S.Deliver;
    var r := CancelUtterance(s, contract.direction, u);
    S.CancelAnswered(s, c.validator, contract.direction, u, at);
    CancelEnds(s, contract.direction, u);
    var e := r.answer.events[0];
    assert r.answer.events == [e];
    assert Ready(c.watchdog, e, at);
    hide WatchedCancelling, Ready;
    AnswerTaken(c, e, at);
    AnswerWatched(s, r.session, c.watchdog, Deliver(c, [e], at).value.watchdog, us, u, at);
  }

  lemma ListsRest(order: seq<Uuid>, us: set<Uuid>)
    requires Lists(order, us) && order != []
    ensures order[0] in us && Lists(order[1..], us - {order[0]})
  {
    assert forall u :: u in order <==> u == order[0] || u in order[1..];
  }

  /** All of them are answered: nothing is overdue any more. */
  lemma AllAnswered(contract: Contract, s: Session, c: C.Coordinator, at: W.Ns)
    requires Cancelling(contract, s, c, {}, at) && !s.closed
    ensures Agree(contract, s, c) && W.Overdue(c.watchdog, at) == {}
  {
    assert c.validator.(cancelPending := {}) == c.validator;
    BooksOf(s, c);
    hide InUse, S.AgreeBut;
  }

  /** However the daemon orders its requests, the coordinator takes every answer. */
  lemma {:induction false} CancelEachTaken(inj: Injection, contract: Contract, s: Session, c: C.Coordinator,
        us: set<Uuid>, order: seq<Uuid>, at: W.Ns)
    requires Inv(s) && !s.closed && Cancelling(contract, s, c, us, at) && Lists(order, us)
    requires contract.outputFormat.frameDurationMs <= C.MAX_RECEIVE_BUFFERED_MS
    ensures var n := CancelEach(inj, s, c, order, at);
            && !n.Refused?
            && (n.Running? ==>
                  && Agree(contract, n.session, n.coordinator) && W.Overdue(n.coordinator.watchdog, at) == {}
                  && n.session.streams == s.streams - us && !n.session.closed)
    decreases |order|
  {
    hide Inv, Apply, Deliver, Agree, W.Overdue;
    if order == [] {
      assert us == {};
      AllAnswered(contract, s, c, at);
    } else {
      var cancel := Cancel(contract.direction, order[0]);
      var r := Apply(inj, s, cancel);
      ListsRest(order, us);
      if r.answer.Events? {
        OneAnswered(inj, contract, s, c, us, order[0], at);
        ApplyKeepsInv(inj, s, cancel);
        hide Cancelling;
        var c' := Deliver(c, r.answer.events, at).value;
        CancelEachTaken(inj, contract, r.session, c', us - {order[0]}, order[1..], at);
        assert s.streams - {order[0]} - (us - {order[0]}) == s.streams - us;
      }
    }
  }

  /** A poll is never refused and never asks for more than cancellations: afterwards exactly the
      overdue utterances are gone, nothing is overdue, and all agree again. */
  lemma PollTaken(inj: Injection, contract: Contract, j: Joint, at: W.Ns, order: seq<Uuid>)
    requires j.Running? && Inv(j.session) && Agree(contract, j.session, j.coordinator)
    requires contract.outputFormat.frameDurationMs <= C.MAX_RECEIVE_BUFFERED_MS
    ensures var n := Polled(inj, j, at, order);
            && !n.Refused?
            && (n.Running? ==> Agree(contract, n.session, n.coordinator))
            && (n.Running? && !j.session.closed && Lists(order, W.Overdue(j.coordinator.watchdog, at)) ==>
                  && W.Overdue(n.coordinator.watchdog, at) == {}
                  && n.session.streams == j.session.streams - W.Overdue(j.coordinator.watchdog, at))
  {
    var us := W.Overdue(j.coordinator.watchdog, at);
    if j.session.closed {
      assert order != [] ==> order[0] in order;
    } else {
      PollMarks(contract, j.session, j.coordinator, at);
      hide Inv, Agree, Cancelling, CancelEach, C.Poll, Lists, W.Overdue;
      if Lists(order, us) {
        CancelEachTaken(inj, contract, j.session, C.Poll(j.coordinator, at).coordinator, us, order, at);
      }
    }
  }
}
