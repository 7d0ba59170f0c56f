/** The order in which the watchdog's alarms can go off, over every run. */
module EscalationLadder {
  import opened Wire
  import opened WatchdogModel

  datatype Op =
    | Start(stream: Uuid, utterance: Uuid, at: Ns)
    | EndOfUtterance(stream: Uuid, utterance: Uuid, at: Ns)
    | Audio(stream: Uuid, utterance: Uuid, at: Ns)
    | Final(stream: Uuid, utterance: Uuid, cancelled: bool)
    | Disarm(stream: Uuid, utterance: Uuid)
    | CancelNow(stream: Uuid, utterance: Uuid, at: Ns)
    | Closed(session: Uuid)
    | PollAt(at: Ns)

  /** An alarm, and when it went off. */
  datatype Rung = Rung(alarm: Alarm, at: Ns)

  datatype Run = Run(watchdog: Watchdog, log: seq<Rung>)

  function After(w: Watchdog, op: Op): Watchdog {
    match op
    case Start(s, u, at) => StartUtterance(w, s, u, at).watchdog
    case EndOfUtterance(s, u, at) => RecordEndOfUtterance(w, s, u, at).watchdog
    case Audio(s, u, at) => RecordAudio(w, s, u, at).watchdog
    case Final(s, u, cancelled) => FinishUtterance(w, s, u, cancelled).watchdog
    case Disarm(s, u) => DisarmUtterance(w, s, u).watchdog
    case CancelNow(s, u, at) => CancelUtterance(w, s, u, at).watchdog
    case Closed(session) => RecordSessionClosed(w, session).watchdog
    case PollAt(at) => Poll(w, at).watchdog
  }

  function Rings(w: Watchdog, op: Op): seq<Rung> {
    match op
    case CancelNow(s, u, at) => if CancelUtterance(w, s, u, at).error.None? then [Rung(Cancel({u}), at)] else []
    case PollAt(at) => [Rung(Poll(w, at).alarm, at)]
    case _ => []
  }

  function Execute(session: Uuid, ops: seq<Op>): Run {
    if ops == [] then Run(Fresh(session), [])
    else
      var r := Execute(session, ops[..|ops| - 1]);
      var op := ops[|ops| - 1];
      Run(After(r.watchdog, op), r.log + Rings(r.watchdog, op))
  }

  /** Where a session stands on the ladder, told from its log alone. */
  ghost predicate OnLadder(r: Run) {
    match r.watchdog.phase
    case Active => forall x <- r.log :: x.alarm.Cancel?
    case ClosePending(d) => exists i :: ClosedAt(r.log, i) && d == SaturatingAdd(r.log[i].at, CLOSE_ACK_NS)
    case RestartIssued => exists i, j :: Climbed(r.log, i, j)
    case Terminal =>
      (forall x <- r.log :: x.alarm.Cancel?) || (exists i :: ClosedAt(r.log, i))
      || (exists i, j :: Climbed(r.log, i, j))
  }

  /** The one close so far, and no restart. */
  ghost predicate ClosedAt(log: seq<Rung>, i: int) {
    && 0 <= i < |log| && log[i].alarm.CloseSession?
    && forall k :: 0 <= k < |log| && k != i ==> log[k].alarm.Cancel?
  }

  /** One close, and one restart a close-acknowledgement timeout later. */
  ghost predicate Climbed(log: seq<Rung>, i: int, j: int) {
    && 0 <= i < j < |log| && log[i].alarm.CloseSession? && log[j].alarm.RestartSidecar?
    && log[j].at >= SaturatingAdd(log[i].at, CLOSE_ACK_NS)
    && forall k :: 0 <= k < |log| && k != i && k != j ==> log[k].alarm.Cancel?
  }

  /** While the session is active, every cancellation under way is in the log, and its
      deadline runs from then. */
  ghost predicate CancelsLogged(r: Run) {
    r.watchdog.phase.Active? ==>
      forall u <- r.watchdog.utterances ::
        r.watchdog.utterances[u].phase.CancelPending? ==> Logged(r.log, u, r.watchdog.utterances[u].phase.deadline)
  }

  ghost predicate Logged(log: seq<Rung>, u: Uuid, deadline: Ns) {
    exists i :: 0 <= i < |log| && log[i].alarm.Cancel? && u in log[i].alarm.utterances
                && deadline == SaturatingAdd(log[i].at, CANCEL_FINAL_NS)
  }

  lemma LoggedMore(log: seq<Rung>, more: seq<Rung>, u: Uuid, deadline: Ns)
    requires Logged(log, u, deadline)
    ensures Logged(log + more, u, deadline)
  {
    var i :| 0 <= i < |log| && log[i].alarm.Cancel? && u in log[i].alarm.utterances
             && deadline == SaturatingAdd(log[i].at, CANCEL_FINAL_NS);
    assert (log + more)[i] == log[i];
  }

  lemma QuietPhase(w: Watchdog, op: Op)
    requires !op.PollAt? && !op.Closed?
    ensures After(w, op).phase == w.phase
    ensures forall x <- Rings(w, op) :: x.alarm.Cancel?
  {}

  lemma LadderMore(r: Run, w: Watchdog, more: seq<Rung>)
    requires OnLadder(r) && (w.phase == r.watchdog.phase || w.phase.Terminal?)
    requires forall x <- more :: x.alarm.Cancel?
    ensures OnLadder(Run(w, r.log + more))
  {
    var log := r.log + more;
    if i :| ClosedAt(r.log, i) && (r.watchdog.phase.ClosePending? ==>
      r.watchdog.phase.deadline == SaturatingAdd(r.log[i].at, CLOSE_ACK_NS)) {
      assert ClosedAt(log, i);
    } else if i, j :| Climbed(r.log, i, j) {
      assert Climbed(log, i, j);
    }
  }

  lemma PollLadder(r: Run, at: Ns)
    requires OnLadder(r)
    ensures OnLadder(Run(Poll(r.watchdog, at).watchdog, r.log + [Rung(Poll(r.watchdog, at).alarm, at)]))
  {
    var p := Poll(r.watchdog, at);
    var rung := Rung(p.alarm, at);
    var log := r.log + [rung];
    match p.alarm
    case Cancel(_) => LadderMore(r, p.watchdog, [rung]);
    case CloseSession => assert log[|r.log|] == rung; assert ClosedAt(log, |r.log|);
    case RestartSidecar =>
      var i :| ClosedAt(r.log, i) && r.watchdog.phase.deadline == SaturatingAdd(r.log[i].at, CLOSE_ACK_NS);
      assert log[i] == r.log[i] && log[|r.log|] == rung;
      assert Climbed(log, i, |r.log|);
  }

  lemma {:induction false} AlwaysOnLadder(session: Uuid, ops: seq<Op>)
    ensures OnLadder(Execute(session, ops))
  {
    if ops != [] {
      AlwaysOnLadder(session, ops[..|ops| - 1]);
      var r := Execute(session, ops[..|ops| - 1]);
      var op := ops[|ops| - 1];
      if op.PollAt? {
        PollLadder(r, op.at);
      } else {
        if !op.Closed? {
          QuietPhase(r.watchdog, op);
        }
        LadderMore(r, After(r.watchdog, op), Rings(r.watchdog, op));
      }
    }
  }

  /** Over every run: the session is closed at most once, the sidecar restarted at most
      once, and the restart comes after the close, no sooner than its timeout. */
  lemma LadderOrder(session: Uuid, ops: seq<Op>, i: nat, j: nat)
    requires i < |Execute(session, ops).log| && j < |Execute(session, ops).log|
    ensures var log := Execute(session, ops).log;
            && (log[i].alarm.CloseSession? && log[j].alarm.CloseSession? ==> i == j)
            && (log[i].alarm.RestartSidecar? && log[j].alarm.RestartSidecar? ==> i == j)
            && (log[i].alarm.CloseSession? && log[j].alarm.RestartSidecar? ==>
                  i < j && log[j].at >= SaturatingAdd(log[i].at, CLOSE_ACK_NS))
            && (log[j].alarm.RestartSidecar? ==> exists k :: 0 <= k < j && log[k].alarm.CloseSession?)
  {
    hide After, Rings, Execute;
    AlwaysOnLadder(session, ops);
  }

  // ---- A close answers an unanswered cancellation ----

  lemma AfterLogged(r: Run, op: Op)
    requires CancelsLogged(r)
    ensures CancelsLogged(Run(After(r.watchdog, op), r.log + Rings(r.watchdog, op)))
  {
    var (w, rings) := (After(r.watchdog, op), Rings(r.watchdog, op));
    forall u <- w.utterances | w.phase.Active? && w.utterances[u].phase.CancelPending?
      ensures Logged(r.log + rings, u, w.utterances[u].phase.deadline)
    {
      if u in r.watchdog.utterances && r.watchdog.utterances[u] == w.utterances[u] {
        LoggedMore(r.log, rings, u, w.utterances[u].phase.deadline);
      } else {
        assert |rings| == 1 && (r.log + rings)[|r.log|] == rings[0] && rings[0].alarm.Cancel?;
      }
    }
  }

  lemma {:induction false} CancelsAlwaysLogged(session: Uuid, ops: seq<Op>)
    ensures CancelsLogged(Execute(session, ops))
  {
    if ops != [] {
      CancelsAlwaysLogged(session, ops[..|ops| - 1]);
      AfterLogged(Execute(session, ops[..|ops| - 1]), ops[|ops| - 1]);
    }
  }

  /** When a poll closes the session, an utterance was asked to cancel more than the
      cancellation timeout ago, and is still waiting for its final. */
  lemma CloseFollowsSilence(session: Uuid, ops: seq<Op>, at: Ns)
    requires Poll(Execute(session, ops).watchdog, at).alarm.CloseSession?
    ensures var r := Execute(session, ops);
            exists u <- r.watchdog.utterances, i ::
              && 0 <= i < |r.log| && r.log[i].alarm.Cancel? && u in r.log[i].alarm.utterances
              && r.watchdog.utterances[u].phase.CancelPending?
              && at > SaturatingAdd(r.log[i].at, CANCEL_FINAL_NS)
  {
    hide Execute;
    CancelsAlwaysLogged(session, ops);
    var r := Execute(session, ops);
    var u :| u in r.watchdog.utterances && IsUnanswered(r.watchdog.utterances[u], at);
    assert Logged(r.log, u, r.watchdog.utterances[u].phase.deadline);
  }

  // ---- Silence always reaches the top ----

  /** The watchdog polled at the given times, with nothing else happening. */
  function PollAll(w: Watchdog, times: seq<Ns>): Watchdog {
    if times == [] then w else Poll(PollAll(w, times[..|times| - 1]), times[|times| - 1]).watchdog
  }

  predicate NonDecreasing(times: seq<Ns>) {
    forall i, j :: 0 <= i <= j < |times| ==> times[i] <= times[j]
  }

  predicate Due(w: Watchdog, u: Uuid, limit: Ns) {
    w.phase.Active? && u in w.utterances && w.utterances[u].phase.deadline <= limit
  }

  /** Asked to cancel with its deadline at hand, or further up. */
  predicate Asked(w: Watchdog, u: Uuid, limit: Ns, now: Ns) {
    || Closing(w, now)
    || (w.phase.Active? && u in w.utterances && w.utterances[u].phase.CancelPending?
        && w.utterances[u].phase.deadline <= limit)
  }

  /** Asked to close, or already restarted. */
  predicate Closing(w: Watchdog, now: Ns) {
    || w.phase.RestartIssued?
    || (w.phase.ClosePending? && w.phase.deadline <= SaturatingAdd(now, CLOSE_ACK_NS))
  }

  /** While nothing answers, an utterance that is due stays due, or has been asked. */
  lemma {:induction false} DueOrAsked(w: Watchdog, u: Uuid, due: Ns, times: seq<Ns>)
    requires Due(w, u, due) && NonDecreasing(times) && times != []
    ensures var (w', now) := (PollAll(w, times), times[|times| - 1]);
            Asked(w', u, SaturatingAdd(now, CANCEL_FINAL_NS), now) || (Due(w', u, due) && now <= due)
  {
    var before := times[..|times| - 1];
    if before != [] {
      DueOrAsked(w, u, due, before);
      assert before[|before| - 1] == times[|times| - 2];
    } else {
      assert PollAll(w, before) == w;
    }
  }

  lemma {:induction false} AskedUntil(w: Watchdog, u: Uuid, due: Ns, times: seq<Ns>, a: nat, k: nat)
    requires Due(w, u, due) && NonDecreasing(times) && a <= k < |times| && times[a] > due
    ensures Asked(PollAll(w, times[..k + 1]), u, SaturatingAdd(times[a], CANCEL_FINAL_NS), times[k])
    decreases k
  {
    if k == a {
      DueOrAsked(w, u, due, times[..k + 1]);
    } else {
      AskedUntil(w, u, due, times, a, k - 1);
      assert times[..k + 1][..k] == times[..k];
    }
  }

  lemma {:induction false} ClosingUntil(w: Watchdog, u: Uuid, due: Ns, times: seq<Ns>, a: nat, b: nat, k: nat)
    requires Due(w, u, due) && NonDecreasing(times) && a < b <= k < |times| && times[a] > due
    requires times[b] > SaturatingAdd(times[a], CANCEL_FINAL_NS)
    ensures Closing(PollAll(w, times[..k + 1]), times[b])
    decreases k
  {
    assert times[..k + 1][..k] == times[..k];
    if k == b {
      AskedUntil(w, u, due, times, a, b - 1);
      AskedUntil(w, u, due, times, a, b);
    } else {
      ClosingUntil(w, u, due, times, a, b, k - 1);
    }
  }

  lemma {:induction false} RestartedSince(w: Watchdog, u: Uuid, due: Ns, times: seq<Ns>, a: nat, b: nat, c: nat, k: nat)
    requires Due(w, u, due) && NonDecreasing(times) && a < b < c <= k < |times| && times[a] > due
    requires times[b] > SaturatingAdd(times[a], CANCEL_FINAL_NS) && times[c] >= SaturatingAdd(times[b], CLOSE_ACK_NS)
    ensures PollAll(w, times[..k + 1]).phase.RestartIssued?
    decreases k
  {
    assert times[..k + 1][..k] == times[..k];
    if k == c {
      ClosingUntil(w, u, due, times, a, b, c - 1);
    } else {
      RestartedSince(w, u, due, times, a, b, c, k - 1);
    }
  }

  /** With no answer at all, a poll after the deadline, one more than a cancellation timeout
      later and one a close timeout after that always reach the restart, whatever other
      polls come between; from then on every poll is silent. */
  lemma SilenceReachesRestart(w: Watchdog, u: Uuid, due: Ns, times: seq<Ns>, a: nat, b: nat, c: nat, later: Ns)
    requires Due(w, u, due) && NonDecreasing(times) && a < b < c < |times| && times[a] > due
    requires times[b] > SaturatingAdd(times[a], CANCEL_FINAL_NS) && times[c] >= SaturatingAdd(times[b], CLOSE_ACK_NS)
    ensures PollAll(w, times).phase.RestartIssued?
    ensures Poll(PollAll(w, times), later) == Polled(PollAll(w, times), Cancel({}))
  {
    RestartedSince(w, u, due, times, a, b, c, |times| - 1);
    assert times[..|times|] == times;
  }
}
