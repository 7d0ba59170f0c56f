/** The watchdog as a reader of its history: over every run, what it accepts and which alarms
    go off is fixed by the calls made and how they were answered, in plain figures of time. */
module WatchdogHistory {
  import opened Wire
  import opened WatchdogModel
  import opened EscalationLadder

  /** A call, whether it was accepted, and the alarm it set off. */
  datatype Entry = Entry(op: Op, ok: bool, alarm: Option<Alarm>)

  function Accepts(w: Watchdog, op: Op): bool {
    match op
    case Start(s, u, at) => StartUtterance(w, s, u, at).error.None?
    case EndOfUtterance(s, u, at) => RecordEndOfUtterance(w, s, u, at).error.None?
    case Audio(s, u, at) => RecordAudio(w, s, u, at).error.None?
    case Final(s, u, cancelled) => FinishUtterance(w, s, u, cancelled).error.None?
    case Disarm(s, u) => DisarmUtterance(w, s, u).error.None?
    case CancelNow(s, u, at) => CancelUtterance(w, s, u, at).error.None?
    case Closed(session) => RecordSessionClosed(w, session).error.None?
    case PollAt(_) => true
  }

  function AlarmOf(w: Watchdog, op: Op): Option<Alarm> {
    if op.PollAt? then Some(Poll(w, op.at).alarm) else None
  }

  function Answer(w: Watchdog, op: Op): Entry {
    Entry(op, Accepts(w, op), AlarmOf(w, op))
  }

  function History(session: Uuid, ops: seq<Op>): seq<Entry> {
    if ops == [] then []
    else
      var (before, op) := (ops[..|ops| - 1], ops[|ops| - 1]);
      History(session, before) + [Answer(Execute(session, before).watchdog, op)]
  }

  // ---- Reading a history ----

  function Before(h: seq<Entry>): seq<Entry>
    requires h != []
  {
    h[..|h| - 1]
  }

  function Latest(h: seq<Entry>): Entry
    requires h != []
  {
    h[|h| - 1]
  }

  /** What an utterance is waiting for, and since when. */
  datatype Stage =
    | Speaking(since: Ns)
    | Awaited(since: Ns)
    | Playing(since: Ns)
    | Cancelling(since: Ns)

  datatype Life = Life(stream: Uuid, stage: Stage)

  predicate CancelledBy(x: Entry, u: Uuid) {
    || (x.op.CancelNow? && x.ok && x.op.utterance == u)
    || (x.op.PollAt? && x.alarm.Some? && x.alarm.value.Cancel? && u in x.alarm.value.utterances)
  }

  /** Where an utterance stands: the last thing that happened to it. */
  function LifeOf(h: seq<Entry>, u: Uuid): Option<Life> {
    if h == [] then None
    else
      var (life, x) := (LifeOf(Before(h), u), Latest(h));
      if x.op.Closed? && x.ok then None
      else if (x.op.Final? || x.op.Disarm?) && x.ok && x.op.utterance == u then None
      else if x.op.Start? && x.ok && x.op.utterance == u then Some(Life(x.op.stream, Speaking(x.op.at)))
      else if life.None? then None
      else if x.op.EndOfUtterance? && x.ok && x.op.utterance == u then Some(life.value.(stage := Awaited(x.op.at)))
      else if x.op.Audio? && x.ok && x.op.utterance == u then Some(life.value.(stage := Playing(x.op.at)))
      else if CancelledBy(x, u) then Some(life.value.(stage := Cancelling(x.op.at)))
      else life
  }

  datatype Standing = Up | Closing(since: Ns) | Restarted | Over

  /** Where the session stands. */
  function StandingIn(h: seq<Entry>): Standing {
    if h == [] then Up
    else
      var x := Latest(h);
      if x.op.Closed? && x.ok then Over
      else if x.alarm == Some(CloseSession) && x.op.PollAt? then Closing(x.op.at)
      else if x.alarm == Some(RestartSidecar) then Restarted
      else StandingIn(Before(h))
  }

  /** Nanoseconds later, as far as the clock goes. */
  function Later(t: Ns, ns: nat): Ns {
    if t + ns <= 0xFFFF_FFFF_FFFF_FFFF then t + ns else 0xFFFF_FFFF_FFFF_FFFF
  }

  /** Twelve seconds to speak, six until the first audio, a quarter of one between audio and for
      the answer to a cancellation. */
  function Deadline(stage: Stage): Ns {
    match stage
    case Speaking(t) => Later(t, 12_000_000_000)
    case Awaited(t) => Later(t, 6_000_000_000)
    case Playing(t) => Later(t, 250_000_000)
    case Cancelling(t) => Later(t, 250_000_000)
  }

  // ---- What is accepted ----

  predicate IsAt(h: seq<Entry>, stream: Uuid, u: Uuid) {
    StandingIn(h).Up? && LifeOf(h, u).Some? && LifeOf(h, u).value.stream == stream
  }

  predicate Heard(stage: Stage) {
    stage.Awaited? || stage.Playing?
  }

  predicate Admissible(session: Uuid, h: seq<Entry>, op: Op) {
    match op
    case Start(_, u, _) => StandingIn(h).Up? && LifeOf(h, u).None?
    case EndOfUtterance(s, u, at) =>
      IsAt(h, s, u) && LifeOf(h, u).value.stage.Speaking? && at <= Deadline(LifeOf(h, u).value.stage)
    case Audio(s, u, at) =>
      IsAt(h, s, u) && Heard(LifeOf(h, u).value.stage) && at <= Deadline(LifeOf(h, u).value.stage)
    case Final(s, u, cancelled) =>
      && IsAt(h, s, u)
      && if cancelled then LifeOf(h, u).value.stage.Cancelling? else Heard(LifeOf(h, u).value.stage)
    case Disarm(s, u) => LifeOf(h, u).Some? && LifeOf(h, u).value.stream == s
    case CancelNow(s, u, _) => IsAt(h, s, u) && Heard(LifeOf(h, u).value.stage)
    case Closed(closing) => closing == session
    case PollAt(_) => true
  }

  /** An end is let through with the right outcome and in time. */
  predicate EndsInTime(h: seq<Entry>, stream: Uuid, u: Uuid, outcome: Outcome, now: Ns) {
    && IsAt(h, stream, u) && now <= Deadline(LifeOf(h, u).value.stage)
    && if LifeOf(h, u).value.stage.Cancelling? then outcome == Cancelled
       else Heard(LifeOf(h, u).value.stage) && outcome in {Completed, Dropped}
  }

  // ---- Which alarm goes off ----

  ghost predicate Overdue(h: seq<Entry>, u: Uuid, now: Ns) {
    LifeOf(h, u).Some? && !LifeOf(h, u).value.stage.Cancelling? && now > Deadline(LifeOf(h, u).value.stage)
  }

  ghost predicate Unanswered(h: seq<Entry>, u: Uuid, now: Ns) {
    LifeOf(h, u).Some? && LifeOf(h, u).value.stage.Cancelling? && now > Deadline(LifeOf(h, u).value.stage)
  }

  /** A restart two seconds after an unanswered close; a close once some cancellation has gone
      unanswered; otherwise the overdue utterances are cancelled, all of them and no others. */
  ghost predicate Rightly(h: seq<Entry>, now: Ns, alarm: Alarm) {
    match StandingIn(h)
    case Closing(since) => alarm == if now >= Later(since, 2_000_000_000) then RestartSidecar else Cancel({})
    case Up =>
      if exists u :: Unanswered(h, u, now) then alarm == CloseSession
      else alarm.Cancel? && forall u :: u in alarm.utterances <==> Overdue(h, u, now)
    case _ => alarm == Cancel({})
  }

  // ---- The watchdog's memory is its history ----

  function PhaseOf(stage: Stage): Phase {
    match stage
    case Speaking(_) => CollectingInput(Deadline(stage))
    case Awaited(_) => AwaitingFirstAudio(Deadline(stage))
    case Playing(_) => StreamingAudio(Deadline(stage))
    case Cancelling(_) => CancelPending(Deadline(stage))
  }

  ghost predicate MeantOf(w: Watchdog, h: seq<Entry>, u: Uuid) {
    && (u in w.utterances <==> LifeOf(h, u).Some?)
    && (u in w.utterances ==> w.utterances[u].stream == LifeOf(h, u).value.stream)
    && (u in w.utterances && w.phase.Active? ==> w.utterances[u].phase == PhaseOf(LifeOf(h, u).value.stage))
  }

  ghost predicate Meant(w: Watchdog, session: Uuid, h: seq<Entry>) {
    && w.session == session
    && w.phase == (match StandingIn(h)
                   case Up => Active
                   case Closing(t) => ClosePending(Later(t, 2_000_000_000))
                   case Restarted => RestartIssued
                   case Over => Terminal)
    && forall u :: MeantOf(w, h, u)
  }

  lemma OneMore(h: seq<Entry>, x: Entry)
    ensures Before(h + [x]) == h && Latest(h + [x]) == x
  {}

  lemma LifeMore(h: seq<Entry>, x: Entry, u: Uuid)
    ensures var (life, more) := (LifeOf(h, u), LifeOf(h + [x], u));
            && (x.op.Closed? && x.ok ==> more.None?)
            && (!x.op.Closed? && (x.op.PollAt? || x.op.utterance != u || !x.ok) && !CancelledBy(x, u) ==> more == life)
            && (CancelledBy(x, u) && life.Some? ==> more == Some(life.value.(stage := Cancelling(x.op.at))))
            && (CancelledBy(x, u) && life.None? ==> more == None)
            && (x.op.Closed? && !x.ok ==> more == life)
  {
    OneMore(h, x);
  }

  lemma StandingMore(h: seq<Entry>, x: Entry)
    ensures StandingIn(h + [x]) ==
            if x.op.Closed? && x.ok then Over
            else if x.alarm == Some(CloseSession) && x.op.PollAt? then Closing(x.op.at)
            else if x.alarm == Some(RestartSidecar) then Restarted
            else StandingIn(h)
  {
    OneMore(h, x);
  }

  lemma SameDeadlines(t: Ns)
    ensures SaturatingAdd(t, COLLECTING_INPUT_NS) == Deadline(Speaking(t))
    ensures SaturatingAdd(t, FIRST_AUDIO_NS) == Deadline(Awaited(t))
    ensures SaturatingAdd(t, INTER_AUDIO_NS) == Deadline(Playing(t))
    ensures SaturatingAdd(t, CANCEL_FINAL_NS) == Deadline(Cancelling(t))
    ensures SaturatingAdd(t, CLOSE_ACK_NS) == Later(t, 2_000_000_000)
  {}

  /** One utterance after a call that is not a poll. */
  lemma CallMeantOf(w: Watchdog, h: seq<Entry>, op: Op, u: Uuid)
    requires MeantOf(w, h, u) && !op.PollAt?
    ensures MeantOf(After(w, op), h + [Answer(w, op)], u)
  {
    OneMore(h, Answer(w, op));
    if op.Start? || op.EndOfUtterance? || op.Audio? || op.CancelNow? {
      SameDeadlines(op.at);
    }
    hide SaturatingAdd, Deadline, Later;
  }

  lemma PollMeantOf(w: Watchdog, h: seq<Entry>, now: Ns, u: Uuid)
    requires MeantOf(w, h, u)
    ensures MeantOf(After(w, PollAt(now)), h + [Answer(w, PollAt(now))], u)
  {
    LifeMore(h, Answer(w, PollAt(now)), u);
    SameDeadlines(now);
    hide SaturatingAdd, Deadline, Later, LifeOf;
  }

  lemma StepMeant(w: Watchdog, session: Uuid, h: seq<Entry>, op: Op)
    requires Meant(w, session, h)
    ensures Meant(After(w, op), session, h + [Answer(w, op)])
  {
    StandingMore(h, Answer(w, op));
    forall u ensures MeantOf(After(w, op), h + [Answer(w, op)], u) {
      assert MeantOf(w, h, u);
      if op.PollAt? { PollMeantOf(w, h, op.at, u); } else { CallMeantOf(w, h, op, u); }
    }
    hide MeantOf, StandingIn;
    PhaseAfter(w, op);
    if op.PollAt? {
      SameDeadlines(op.at);
    }
  }

  /** The phase changes with a close, an answer to it, or not at all. */
  lemma PhaseAfter(w: Watchdog, op: Op)
    ensures After(w, op).session == w.session
    ensures var (w', x) := (After(w, op), Answer(w, op));
            w'.phase ==
            if x.op.Closed? && x.ok then Terminal
            else if x.alarm == Some(CloseSession) then ClosePending(SaturatingAdd(x.op.at, CLOSE_ACK_NS))
            else if x.alarm == Some(RestartSidecar) then RestartIssued
            else w.phase
  {}

  lemma {:induction false} RunMeant(session: Uuid, ops: seq<Op>)
    ensures Meant(Execute(session, ops).watchdog, session, History(session, ops))
  {
    if ops != [] {
      var (before, op) := (ops[..|ops| - 1], ops[|ops| - 1]);
      RunMeant(session, before);
      hide Meant, After, Answer;
      StepMeant(Execute(session, before).watchdog, session, History(session, before), op);
    }
  }

  // ---- The theorems, for every run ----

  lemma Answers(w: Watchdog, session: Uuid, h: seq<Entry>, op: Op)
    requires Meant(w, session, h)
    ensures Accepts(w, op) <==> Admissible(session, h, op)
  {
    hide LifeOf, StandingIn, Deadline;
    if !op.Closed? && !op.PollAt? {
      assert MeantOf(w, h, op.utterance);
    }
  }

  /** Over every run, a call is accepted exactly when what happened before allows it in time. */
  lemma AcceptedIff(session: Uuid, ops: seq<Op>, op: Op)
    ensures Accepts(Execute(session, ops).watchdog, op) <==> Admissible(session, History(session, ops), op)
  {
    hide Execute, History, Accepts, Admissible, Meant;
    RunMeant(session, ops);
    Answers(Execute(session, ops).watchdog, session, History(session, ops), op);
  }

  /** And so is an end of an utterance let through to the validator. */
  lemma EndAllowedIff(session: Uuid, ops: seq<Op>, stream: Uuid, u: Uuid, outcome: Outcome, now: Ns)
    ensures FinalError(Execute(session, ops).watchdog, stream, u, outcome, now).None? <==>
              EndsInTime(History(session, ops), stream, u, outcome, now)
  {
    hide Execute, History, FinalError, EndsInTime, Meant;
    RunMeant(session, ops);
    EndAllowed(Execute(session, ops).watchdog, session, History(session, ops), stream, u, outcome, now);
  }

  lemma EndAllowed(w: Watchdog, session: Uuid, h: seq<Entry>, stream: Uuid, u: Uuid, outcome: Outcome, now: Ns)
    requires Meant(w, session, h)
    ensures FinalError(w, stream, u, outcome, now).None? <==> EndsInTime(h, stream, u, outcome, now)
  {
    hide LifeOf, StandingIn, Deadline;
    assert MeantOf(w, h, u);
  }

  lemma RingsRightly(w: Watchdog, session: Uuid, h: seq<Entry>, now: Ns)
    requires Meant(w, session, h)
    ensures Rightly(h, now, Poll(w, now).alarm)
  {
    hide LifeOf, StandingIn, Deadline, Later;
    forall u ensures Unanswered(h, u, now) && w.phase.Active? <==>
                     u in w.utterances && IsUnanswered(w.utterances[u], now) && w.phase.Active?
    {
      assert MeantOf(w, h, u);
    }
    forall u ensures Overdue(h, u, now) && w.phase.Active? <==>
                     u in w.utterances && IsOverdue(w.utterances[u], now) && w.phase.Active?
    {
      assert MeantOf(w, h, u);
    }
  }

  /** Over every run, a poll sets off exactly the alarm that is due. */
  lemma AlarmsExactly(session: Uuid, ops: seq<Op>, now: Ns)
    ensures Rightly(History(session, ops), now, Poll(Execute(session, ops).watchdog, now).alarm)
  {
    hide Execute, History, Poll, Rightly, Meant;
    RunMeant(session, ops);
    RingsRightly(Execute(session, ops).watchdog, session, History(session, ops), now);
  }
}
