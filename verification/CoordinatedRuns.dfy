/** A provider session and the daemon's coordinator run together: exactly when the coordinator
    refuses something the session says. */
module CoordinatedRuns {
  import opened Wire
  import opened EngineModel
  import opened EngineRuns
  import W = WatchdogModel
  import V = ValidatorModel
  import C = CoordinatorModel
  import K = Coupling
  import S = Simulation
  import opened CoordinatedDelivery
  import opened CoordinatedCalls
  import opened CoordinatedPolls

  /** The daemon makes a call, or looks at the deadlines. */
  datatype Turn =
    | Ask(move: Move)
    | Poll(at: W.Ns, order: seq<Uuid>)

  ghost predicate AllFit(contract: Contract, turns: seq<Turn>) {
    forall i :: 0 <= i < |turns| && turns[i].Ask? ==> Fits(contract, turns[i].move)
  }

  ghost function After(inj: Injection, j: Joint, t: Turn): (n: Joint)
    requires j.Running? ==> Inv(j.session)
    requires t.Ask? && t.move.op.Enqueue? ==> t.move.op.frame.captureNs <= W.U64_MAX
    ensures n.Running? ==> Inv(n.session)
  {
    match t
    case Ask(m) => if j.Running? then ApplyKeepsInv(inj, j.session, m.op); Step(inj, j, m) else j
    case Poll(at, order) => Polled(inj, j, at, order)
  }

  /** Both ends just opened. */
  function Beginning(request: OpenRequest, contract: Contract): Joint {
    match Deliver(C.Fresh(contract), [OpenedEvent(request)], 0)
    case None => Refused
    case Some(c) => Running(Opened(request), c)
  }

  ghost function Together(inj: Injection, request: OpenRequest, contract: Contract, turns: seq<Turn>): (j: Joint)
    requires Openable(request) && AllFit(contract, turns)
    ensures j.Running? ==> Inv(j.session)
  {
    if turns == [] then OpenedInv(request); Beginning(request, contract)
    else After(inj, Together(inj, request, contract, turns[..|turns| - 1]), turns[|turns| - 1])
  }

  lemma OpenedInv(request: OpenRequest)
    requires Openable(request)
    ensures Inv(Opened(request))
  {
    hide PcmFormat.FrameBytes;
  }

  lemma FreshInUse(contract: Contract)
    ensures InUse(C.Fresh(contract))
  {}

  lemma BeginningAgrees(request: OpenRequest, contract: Contract)
    requires Openable(request) && S.SameContract(request, contract)
    ensures var j := Beginning(request, contract);
            j.Running? && j.session == Opened(request) && Agree(contract, j.session, j.coordinator)
    ensures contract.outputFormat.frameDurationMs <= C.MAX_RECEIVE_BUFFERED_MS
  {
    var e := OpenedEvent(request);
    S.OpeningAccepted(request, contract);
    FreshInUse(contract);
    hide InUse, Take, S.Deliver, S.AgreeBut, PcmFormat.FrameBytes;
    assert OneEnd([e]) && Open([e]) && AllReady(C.Fresh(contract).watchdog, [e], 0);
    DeliveredIff(C.Fresh(contract), [e], 0);
  }

  /** The turn at `k` is a call on a running session and is amiss. */
  ghost predicate AmissAt(inj: Injection, request: OpenRequest, contract: Contract, turns: seq<Turn>, k: nat)
    requires Openable(request) && AllFit(contract, turns) && k < |turns|
  {
    turns[k].Ask? && Amiss(inj, Together(inj, request, contract, turns[..k]), turns[k].move)
  }

  lemma TurnRefusedIff(inj: Injection, contract: Contract, j: Joint, t: Turn)
    requires j.Running? ==> Inv(j.session) && Agree(contract, j.session, j.coordinator)
    requires t.Ask? ==> Fits(contract, t.move)
    requires contract.outputFormat.frameDurationMs <= C.MAX_RECEIVE_BUFFERED_MS
    ensures After(inj, j, t).Refused? <==> j.Refused? || (t.Ask? && Amiss(inj, j, t.move))
    ensures var n := After(inj, j, t); n.Running? ==> Agree(contract, n.session, n.coordinator)
  {
    hide Agree, Step, Inv, Amiss, Polled;
    if t.Ask? {
      if j.Running? {
        StepRefusedIff(inj, contract, j, t.move);
      } else {
        AmissNeedsRunning(inj, j, t.move);
      }
    } else if j.Running? {
      PollTaken(inj, contract, j, t.at, t.order);
    } else {
      PollNeedsRunning(inj, j, t.at, t.order);
    }
  }

  lemma AmissNeedsRunning(inj: Injection, j: Joint, m: Move)
    requires !j.Running? && (m.op.Enqueue? ==> m.op.frame.captureNs <= W.U64_MAX)
    ensures !Amiss(inj, j, m)
  {}

  lemma PollNeedsRunning(inj: Injection, j: Joint, at: W.Ns, order: seq<Uuid>)
    requires !j.Running?
    ensures Polled(inj, j, at, order) == j
  {}

  lemma {:induction false} TogetherAgrees(inj: Injection, request: OpenRequest, contract: Contract, turns: seq<Turn>)
    requires Openable(request) && S.SameContract(request, contract) && AllFit(contract, turns)
    ensures var j := Together(inj, request, contract, turns); j.Running? ==> Agree(contract, j.session, j.coordinator)
  {
    hide Agree, After, Inv, Amiss;
    BeginningAgrees(request, contract);
    if turns != [] {
      var (before, t) := (turns[..|turns| - 1], turns[|turns| - 1]);
      TogetherAgrees(inj, request, contract, before);
      TurnRefusedIff(inj, contract, Together(inj, request, contract, before), t);
    }
  }

  /** The simulation against the whole stream: over every run, the coordinator refuses
      something the session says, or something the daemon records, if and only if some call is
      amiss in one of the three ways. Looking at the deadlines never makes it refuse. */
  lemma {:induction false} CoordinatorRefusesIff(inj: Injection, request: OpenRequest, contract: Contract,
        turns: seq<Turn>)
    requires Openable(request) && S.SameContract(request, contract) && AllFit(contract, turns)
    ensures Together(inj, request, contract, turns).Refused? <==>
              exists k :: 0 <= k < |turns| && AmissAt(inj, request, contract, turns, k)
  {
    hide Agree, After, Inv, Amiss;
    BeginningAgrees(request, contract);
    if turns != [] {
      var (n, before) := (|turns| - 1, turns[..|turns| - 1]);
      CoordinatorRefusesIff(inj, request, contract, before);
      TogetherAgrees(inj, request, contract, before);
      forall k | 0 <= k < n
        ensures AmissAt(inj, request, contract, turns, k) <==> AmissAt(inj, request, contract, before, k)
      {
        assert before[..k] == turns[..k];
      }
      var j := Together(inj, request, contract, before);
      TurnRefusedIff(inj, contract, j, turns[n]);
      assert AmissAt(inj, request, contract, turns, n) <==> turns[n].Ask? && Amiss(inj, j, turns[n].move);
    }
  }
}
