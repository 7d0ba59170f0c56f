/** The self-test over whole runs: a completed session passed every checkpoint in order with
    an exact proof, and the order in which events arrive does not matter. */
module RoundTripRuns {
  import opened Wire
  import P = ExactPcm
  import T = EnglishTap
  import opened RoundTripModel
  import DirectionSessionModel

  // ---- The session, whoever calls it ----

  datatype Call =
    | Starting(preconditions: Preconditions, at: nat, id: Uuid)
    | Advancing(id: Uuid, checkpoint: Checkpoint, latency: Latencies)
    | Recursing(id: Uuid)
    | Proving(id: Uuid, proof: P.Proof)
    | Stopping(id: Uuid)
    | Failing(id: Uuid, error: RoundTripError)
    | Expiring(at: nat)

  function After(t: SelfTest, c: Call): SelfTest {
    match c
    case Starting(p, at, id) => Start(t, p, at, id).test
    case Advancing(id, checkpoint, latency) => Advance(t, id, checkpoint, latency).test
    case Recursing(id) => RecordRecursion(t, id).test
    case Proving(id, proof) => SetProof(t, id, proof).test
    case Stopping(id) => Stop(t, id).test
    case Failing(id, error) => Fail(t, id, error).test
    case Expiring(at) => Expire(t, at).test
  }

  function Run(calls: seq<Call>): SelfTest {
    if calls == [] then SelfTest(None) else After(Run(calls[..|calls| - 1]), calls[|calls| - 1])
  }

  /** The checkpoints of the latest session in the order it was taken to them. */
  function Trail(calls: seq<Call>): seq<Checkpoint> {
    if calls == [] then []
    else
      var (t, c, earlier) := (Run(calls[..|calls| - 1]), calls[|calls| - 1], Trail(calls[..|calls| - 1]));
      match c
      case Starting(p, at, id) => if Start(t, p, at, id).error.None? then [WaitingForSpeech] else earlier
      case Advancing(id, checkpoint, latency) =>
        if Advance(t, id, checkpoint, latency).error.None? then earlier + [checkpoint] else earlier
      case _ => earlier
  }

  const WAY: seq<Checkpoint> := [
    WaitingForSpeech, OutgoingVad, OutgoingAsrFinal, OutgoingTranslationFinal, EnglishFirstAudio,
        VirtualPeerReinjecting,
    IncomingAsrFinal, IncomingTranslationFinal, RussianFirstAudio, Checkpoint.Completed]

  lemma WayIs(c: Checkpoint)
    ensures Place(c) <= 9 ==> WAY[Place(c)] == c
    ensures Place(c) < 9 ==> c.Following() == Some(WAY[Place(c) + 1])
    ensures Place(c) >= 9 ==> c.Following() == None
  {}

  ghost predicate OnTheWay(t: SelfTest, trail: seq<Checkpoint>) {
    match t.session
    case None => trail == []
    case Some(s) =>
      && 1 <= |trail| <= 10 && trail == WAY[..|trail|]
      && (Place(s.checkpoint) <= 9 ==> |trail| == Place(s.checkpoint) + 1)
      && (|trail| >= 6 ==> Proven(s) && s.latency.englishComplete.Some?)
  }

  lemma AfterOnTheWay(t: SelfTest, c: Call, trail: seq<Checkpoint>)
    requires OnTheWay(t, trail)
    ensures !c.Starting? && !c.Advancing? ==> OnTheWay(After(t, c), trail)
    ensures c.Starting? ==>
              OnTheWay(After(t, c), if Start(t, c.preconditions, c.at, c.id).error.None? then [WaitingForSpeech]
                  else trail)
    ensures c.Advancing? ==>
              OnTheWay(After(t, c), if Advance(t, c.id, c.checkpoint, c.latency).error.None? then trail + [c.checkpoint]
                  else trail)
  {
    if c.Advancing? && Advance(t, c.id, c.checkpoint, c.latency).error.None? {
      WayIs(t.session.value.checkpoint);
      WayIs(c.checkpoint);
      assert WAY[..|trail| + 1] == WAY[..|trail|] + [c.checkpoint];
    }
  }

  lemma {:induction false} RunOnTheWay(calls: seq<Call>)
    ensures OnTheWay(Run(calls), Trail(calls))
  {
    if calls != [] {
      hide After, OnTheWay, Start, Advance;
      RunOnTheWay(calls[..|calls| - 1]);
      AfterOnTheWay(Run(calls[..|calls| - 1]), calls[|calls| - 1], Trail(calls[..|calls| - 1]));
    } else {
      assert WAY[..0] == [];
    }
  }

  /** Whatever is called, in whatever order: a session that is completed was taken through
      every checkpoint in order, each once, and holds an exact proof. */
  lemma CompletedPassedAll(calls: seq<Call>)
    requires Run(calls).session.Some? && Run(calls).session.value.checkpoint == Checkpoint.Completed
    ensures Trail(calls) == WAY
    ensures Proven(Run(calls).session.value) && Run(calls).session.value.latency.englishComplete.Some?
  {
    RunOnTheWay(calls);
    assert WAY[..10] == WAY;
  }

  /** The proof a session holds was given to it by a call. */
  ghost predicate Given(calls: seq<Call>, s: Session) {
    s.exactPcm.Some? ==> exists k :: 0 <= k < |calls| && calls[k] == Proving(s.id, s.exactPcm.value)
  }

  lemma {:induction false} ProofWasGiven(calls: seq<Call>)
    ensures Run(calls).session.Some? ==> Given(calls, Run(calls).session.value)
  {
    if calls != [] {
      var (earlier, c) := (calls[..|calls| - 1], calls[|calls| - 1]);
      ProofWasGiven(earlier);
      var (t, t') := (Run(earlier), Run(calls));
      if t'.session.Some? && t'.session.value.exactPcm.Some? {
        if t.session.Some? && t.session.value.exactPcm == t'.session.value.exactPcm
            && t.session.value.id == t'.session.value.id {
          var k :| 0 <= k < |earlier| && earlier[k] == Proving(t.session.value.id, t.session.value.exactPcm.value);
          assert calls[k] == earlier[k];
        } else {
          ProofIsNew(t, c);
          assert calls[|calls| - 1] == c;
        }
      }
    }
  }

  lemma ProofIsNew(t: SelfTest, c: Call)
    requires After(t, c).session.Some? && After(t, c).session.value.exactPcm.Some?
    requires t.session.None? || t.session.value.exactPcm != After(t, c).session.value.exactPcm
             || t.session.value.id != After(t, c).session.value.id
    ensures c == Proving(After(t, c).session.value.id, After(t, c).session.value.exactPcm.value)
  {}

  /** A completed test whose proof came from writing back the collected frames did reinject
      them: there were some, and the writer echoed every one. */
  lemma CompletedReinjected(calls: seq<Call>, frames: seq<DirectionSessionModel.PcmFrame>, receipts: seq<T.Receipt>)
    requires Run(calls).session.Some? && Run(calls).session.value.checkpoint == Checkpoint.Completed
    requires forall k :: 0 <= k < |calls| && calls[k].Proving? ==> T.Attests(calls[k].proof, frames, receipts)
    ensures frames != [] && |receipts| == |frames|
    ensures forall i :: 0 <= i < |frames| ==> T.Echoes(receipts[i], frames[i])
    ensures var s := Run(calls).session.value;
            Proven(s) && s.exactPcm.value.captured == s.exactPcm.value.reinjected == P.Transcript(frames)
  {
    CompletedPassedAll(calls);
    ProofWasGiven(calls);
    hide Run, Trail, T.Echoes, P.Transcript, P.WellFormed;
    var s := Run(calls).session.value;
    var k :| 0 <= k < |calls| && calls[k] == Proving(s.id, s.exactPcm.value);
    assert T.Attests(calls[k].proof, frames, receipts);
  }

  // ---- The observer: order does not matter ----

  datatype Step =
    | Noticing(notice: Notice, now: nat)
    | Enabling
    | Certifying(proof: P.Proof)
    | Marking(englishCompleteMs: nat, now: nat)

  datatype Next = Next(world: World, ok: bool)

  function Take(w: World, s: Step): Next {
    match s
    case Noticing(n, now) => Next(Observe(w, n, now), true)
    case Enabling => Next(BeginIncoming(w), true)
    case Certifying(proof) =>
      var d := SetProof(w.test, w.observer.id, proof);
      Next(w.(test := d.test), d.error.None?)
    case Marking(ms, now) => Next(MarkReinjecting(w, ms, now).world, MarkReinjecting(w, ms, now).ok)
  }

  function Tell(w: World, steps: seq<Step>): World {
    if steps == [] then w else Take(Tell(w, steps[..|steps| - 1]), steps[|steps| - 1]).world
  }

  /** What a step tells, without when and in which words. */
  datatype Fact =
    | Started(direction: Direction) | Transcribed(direction: Direction) | Translated(direction: Direction)
    | Sounded(direction: Direction) | Finished(direction: Direction) | Ended(direction: Direction)
    | Enabled | HasProof | Reinjecting

  function FactOf(s: Step): Fact {
    match s
    case Enabling => Enabled
    case Certifying(_) => HasProof
    case Marking(_, _) => Reinjecting
    case Noticing(n, _) =>
      match n
      case SpeechStarted(d, _, _) => Started(d)
      case TranscriptFinal(d, _) => Transcribed(d)
      case TranslationFinal(d, _) => Translated(d)
      case AudioFrame(d, _, _) => Sounded(d)
      case TerminalOutcome(d, _, _) => Finished(d)
      case UtteranceTerminal(d, _) => Ended(d)
  }

  function Facts(steps: seq<Step>): set<Fact> {
    if steps == [] then {} else Facts(steps[..|steps| - 1]) + {FactOf(steps[|steps| - 1])}
  }

  /** One utterance each way; what is told of it comes after it started, and the way back
      starts after it was enabled. An exact proof is given once the translated speech is heard,
      and reinjection is marked once there is a proof. */
  predicate InPlace(known: set<Fact>, s: Step, u: Uuid, v: Uuid) {
    match s
    case Enabling => true
    case Certifying(proof) => proof.exact && Reach(known) == EnglishFirstAudio
    case Marking(_, _) => HasProof in known && Reach(known) == EnglishFirstAudio
    case Noticing(n, _) =>
      && n.utterance == (if n.direction.Microphone? then u else v)
      && (n.TerminalOutcome? ==> n.outcome.Completed?)
      && (if n.SpeechStarted? then n.direction.Speaker? ==> Enabled in known else Started(n.direction) in known)
  }

  ghost predicate WellTold(steps: seq<Step>, u: Uuid, v: Uuid) {
    forall i :: 0 <= i < |steps| ==> InPlace(Facts(steps[..i]), steps[i], u, v)
  }

  /** What is known of one way. */
  function LegFacts(known: set<Fact>, d: Direction): (bool, bool, bool, bool, bool) {
    var both := Sounded(d) in known && Finished(d) in known;
    (Started(d) in known, Transcribed(d) in known || both, Translated(d) in known
        || both, Sounded(d) in known, Finished(d) in known)
  }

  predicate LegTold(l: Leg, known: set<Fact>, d: Direction, u: Uuid) {
    && LegFacts(known, d) == (l.utterance.Some?, l.transcriptFinal, l.translationFinal, l.firstAudio, l.completed)
    && (l.utterance.Some? ==> l.utterance.value == u)
    && (l.utterance.None? ==> !l.transcriptFinal && !l.translationFinal && !l.firstAudio && !l.completed)
  }

  /** How far what is known reaches. */
  function Reach(known: set<Fact>): Checkpoint {
    var (started, transcribed, translated, sounded, _) := LegFacts(known, Microphone);
    var (_, backTranscribed, backTranslated, backSounded, _) := LegFacts(known, Speaker);
    if !started then WaitingForSpeech
    else if !transcribed then OutgoingVad
    else if !translated then OutgoingAsrFinal
    else if !sounded then OutgoingTranslationFinal
    else if Reinjecting !in known then EnglishFirstAudio
    else if !backTranscribed then VirtualPeerReinjecting
    else if !backTranslated then IncomingAsrFinal
    else if !backSounded then IncomingTranslationFinal
    else RussianFirstAudio
  }

  /** The observer and its running session agree. */
  predicate InStep(w: World) {
    && w.test.session.Some?
    && w.test.session.value.id == w.observer.id
    && w.test.session.value.checkpoint == w.observer.checkpoint
    && !w.observer.checkpoint.IsTerminal()
  }

  ghost predicate Told(w: World, known: set<Fact>, u: Uuid, v: Uuid) {
    && InStep(w)
    && LegTold(w.observer.outgoing, known, Microphone, u) && LegTold(w.observer.incoming, known, Speaker, v)
    && w.observer.incomingEnabled == (Enabled in known)
    && w.observer.checkpoint == Reach(known)
    && (Started(Speaker) in known ==> Enabled in known)
    && (Place(w.observer.checkpoint) > 4 ==> Reinjecting in known)
    && (Reinjecting in known ==> Place(w.observer.checkpoint) > 4)
    && (HasProof in known ==> Proven(w.test.session.value))
  }

  /** Where draining ends. */
  function Goal(o: Observer): Checkpoint
    decreases 10 - Place(o.checkpoint)
  {
    if Allowed(o).None? then o.checkpoint else Goal(o.(checkpoint := Allowed(o).value))
  }

  lemma {:induction false} DrainReaches(w: World, now: nat)
    requires InStep(w)
    ensures InStep(Drain(w, now)) && Drain(w, now).observer == w.observer.(checkpoint := Goal(w.observer))
    ensures Drain(w, now).test.session.value.exactPcm == w.test.session.value.exactPcm
    decreases 10 - Place(w.observer.checkpoint)
  {
    var c := Allowed(w.observer);
    if c.Some? {
      DrainReaches(StepTo(w, c.value, LatencyAt(w.observer, c.value, now)), now);
    }
  }

  /** Learning a fact of the leg, in terms of what is known. */
  lemma LearnTold(l: Leg, known: set<Fact>, n: Notice, u: Uuid)
    requires LegTold(l, known, n.direction, u) && l.utterance.Some?
    requires !n.SpeechStarted? && !n.UtteranceTerminal?
    ensures LegTold(Learn(l, n), known + {FactOf(Noticing(n, 0))}, n.direction, u)
  {}

  lemma OtherLegTold(l: Leg, known: set<Fact>, f: Fact, d: Direction, u: Uuid)
    requires LegTold(l, known, d, u) && f !in {Started(d), Transcribed(d), Translated(d), Sounded(d), Finished(d)}
    ensures LegTold(l, known + {f}, d, u)
  {}

  /** Draining goes as far as what is known reaches, from anywhere before that. */
  lemma {:induction false} GoalFrom(o: Observer, known: set<Fact>, u: Uuid, v: Uuid)
    requires LegTold(o.outgoing, known, Microphone, u) && LegTold(o.incoming, known, Speaker, v)
    requires Place(o.checkpoint) <= Place(Reach(known))
    requires (Place(o.checkpoint) > 4 <==> Reinjecting in known) && (o.checkpoint.WaitingForSpeech? <==>
             Reach(known).WaitingForSpeech?)
    requires Place(Reach(known)) > 4 <==> Reinjecting in known
    ensures Goal(o) == Reach(known)
    decreases 10 - Place(o.checkpoint)
  {
    if Allowed(o).Some? {
      GoalFrom(o.(checkpoint := Allowed(o).value), known, u, v);
    }
  }

  /** Draining takes the checkpoint from what was known to what is known. */
  lemma GoalReach(o: Observer, known: set<Fact>, known': set<Fact>, u: Uuid, v: Uuid)
    requires LegTold(o.outgoing, known', Microphone, u) && LegTold(o.incoming, known', Speaker, v)
    requires known <= known' && (Reinjecting in known' <==> Reinjecting in known)
             && (Started(Microphone) in known' <==> Started(Microphone) in known)
    requires o.checkpoint == Reach(known) && (Place(o.checkpoint) > 4 <==> Reinjecting in known')
    ensures Goal(o) == Reach(known')
  {
    hide LegTold, Goal;
    GoalFrom(o, known', u, v);
  }

  /** The world before the drain: what is new is already in the legs. */
  ghost predicate Noted(w: World, known: set<Fact>, known': set<Fact>, u: Uuid, v: Uuid) {
    && InStep(w)
    && LegTold(w.observer.outgoing, known', Microphone, u) && LegTold(w.observer.incoming, known', Speaker, v)
    && w.observer.incomingEnabled == (Enabled in known')
    && w.observer.checkpoint == Reach(known)
    && (Started(Speaker) in known' ==> Enabled in known')
    && (Place(w.observer.checkpoint) > 4 <==> Reinjecting in known')
    && (HasProof in known' ==> Proven(w.test.session.value))
  }

  lemma DrainTold(w: World, now: nat, known: set<Fact>, known': set<Fact>, u: Uuid, v: Uuid)
    requires Noted(w, known, known', u, v)
    requires known <= known' && (Reinjecting in known' <==> Reinjecting in known)
             && (Started(Microphone) in known' <==> Started(Microphone) in known)
    ensures Told(Drain(w, now), known', u, v)
  {
    hide LegTold, Goal, Drain;
    DrainReaches(w, now);
    GoalReach(w.observer, known, known', u, v);
    ReachPlace(known, known', w, u, v);
  }

  lemma ReachPlace(known: set<Fact>, known': set<Fact>, w: World, u: Uuid, v: Uuid)
    requires Noted(w, known, known', u, v) && (Reinjecting in known' <==> Reinjecting in known) && known <= known'
    ensures Place(Reach(known')) > 4 <==> Reinjecting in known'
    ensures !Reach(known').IsTerminal()
  {}

  lemma TakeNotice(w: World, known: set<Fact>, n: Notice, now: nat, u: Uuid, v: Uuid)
    requires Told(w, known, u, v) && InPlace(known, Noticing(n, now), u, v)
    ensures Told(Observe(w, n, now), known + {FactOf(Noticing(n, now))}, u, v)
  {
    hide Drain;
    var (s, f) := (Noticing(n, now), FactOf(Noticing(n, now)));
    var known' := known + {f};
    OtherLegTold'(w, known, n, u, v);
    if n.SpeechStarted? && n.direction.Microphone? && w.observer.outgoing.utterance.None? {
      DrainTold(NoticeOutgoing(w, n), now, known', known', u, v);
    } else {
      NoticeNoted(w, known, n, u, v);
      var w' := if n.direction.Microphone? then NoticeOutgoing(w, n) else NoticeIncoming(w, n);
      DrainTold(w', now, known, known', u, v);
    }
  }

  lemma OtherLegTold'(w: World, known: set<Fact>, n: Notice, u: Uuid, v: Uuid)
    requires Told(w, known, u, v)
    ensures var known' := known + {FactOf(Noticing(n, 0))};
            if n.direction.Microphone? then LegTold(w.observer.incoming, known', Speaker, v)
            else LegTold(w.observer.outgoing, known', Microphone, u)
  {
    hide LegTold;
    var f := FactOf(Noticing(n, 0));
    if n.direction.Microphone? {
      OtherLegTold(w.observer.incoming, known, f, Speaker, v);
    } else {
      OtherLegTold(w.observer.outgoing, known, f, Microphone, u);
    }
  }

  lemma NoticeNoted(w: World, known: set<Fact>, n: Notice, u: Uuid, v: Uuid)
    requires Told(w, known, u, v) && InPlace(known, Noticing(n, 0), u, v)
    requires n.SpeechStarted? && n.direction.Microphone? ==> w.observer.outgoing.utterance.Some?
    ensures var known' := known + {FactOf(Noticing(n, 0))};
            Noted(if n.direction.Microphone? then NoticeOutgoing(w, n) else NoticeIncoming(w, n), known, known', u, v)
  {
    hide Drain, Reach;
    OtherLegTold'(w, known, n, u, v);
    var l := if n.direction.Microphone? then w.observer.outgoing else w.observer.incoming;
    if !n.SpeechStarted? && !n.UtteranceTerminal? {
      LearnTold(l, known, n, if n.direction.Microphone? then u else v);
    }
  }

  lemma TakeMark(w: World, known: set<Fact>, ms: nat, now: nat, u: Uuid, v: Uuid)
    requires Told(w, known, u, v) && InPlace(known, Marking(ms, now), u, v)
    ensures MarkReinjecting(w, ms, now).ok
    ensures Told(MarkReinjecting(w, ms, now).world, known + {Reinjecting}, u, v)
  {
    hide Drain;
    var known' := known + {Reinjecting};
    OtherLegTold(w.observer.outgoing, known, Reinjecting, Microphone, u);
    OtherLegTold(w.observer.incoming, known, Reinjecting, Speaker, v);
    var w1 := StepTo(w, VirtualPeerReinjecting, NO_LATENCY.(englishComplete := Some(ms)));
    var none := known' - {Started(Speaker), Transcribed(Speaker), Translated(Speaker), Sounded(Speaker),
        Finished(Speaker)};
    assert Reach(none) == VirtualPeerReinjecting;
    DrainTold(w1, now, none, known', u, v);
  }

  lemma TakeOther(w: World, known: set<Fact>, s: Step, u: Uuid, v: Uuid)
    requires Told(w, known, u, v) && InPlace(known, s, u, v) && (s.Enabling? || s.Certifying?)
    ensures Take(w, s).ok
    ensures Told(Take(w, s).world, known + {FactOf(s)}, u, v)
  {
    OtherLegTold(w.observer.outgoing, known, FactOf(s), Microphone, u);
    OtherLegTold(w.observer.incoming, known, FactOf(s), Speaker, v);
    assert Reach(known + {FactOf(s)}) == Reach(known);
  }

  lemma {:induction false} TellTold(w: World, steps: seq<Step>, u: Uuid, v: Uuid)
    requires Told(w, {}, u, v) && WellTold(steps, u, v)
    ensures Told(Tell(w, steps), Facts(steps), u, v)
  {
    if steps != [] {
      hide Told, InPlace, Take;
      var (earlier, s) := (steps[..|steps| - 1], steps[|steps| - 1]);
      assert forall i :: 0 <= i < |earlier| ==> earlier[..i] == steps[..i];
      TellTold(w, earlier, u, v);
      TakeTold(Tell(w, earlier), Facts(earlier), s, u, v);
    }
  }

  lemma TakeTold(w: World, known: set<Fact>, s: Step, u: Uuid, v: Uuid)
    requires Told(w, known, u, v) && InPlace(known, s, u, v)
    ensures Take(w, s).ok
    ensures Told(Take(w, s).world, known + {FactOf(s)}, u, v)
  {
    match s
    case Noticing(n, now) => TakeNotice(w, known, n, now, u, v); hide *;
    case Marking(ms, now) => TakeMark(w, known, ms, now, u, v); hide *;
    case _ => TakeOther(w, known, s, u, v); hide *;
  }

  /** A session just started and watched has been told nothing. */
  lemma FreshTold(t: SelfTest, p: Preconditions, at: nat, id: Uuid, u: Uuid, v: Uuid)
    requires Start(t, p, at, id).error.None?
    ensures Told(World(Watch(id), Start(t, p, at, id).test), {}, u, v)
  {}

  /** From a session just started, any two orders in which the same things are told reach the
      same checkpoint, the one that what was told allows, even when the way back is told before
      reinjection is marked. */
  lemma OrderDoesNotMatter(t: SelfTest, p: Preconditions, at: nat, id: Uuid, a: seq<Step>, b: seq<Step>, u: Uuid,
        v: Uuid)
    requires Start(t, p, at, id).error.None?
    requires WellTold(a, u, v) && WellTold(b, u, v) && Facts(a) == Facts(b)
    ensures var w := World(Watch(id), Start(t, p, at, id).test);
            && Tell(w, a).observer.checkpoint == Tell(w, b).observer.checkpoint == Reach(Facts(a))
            && InStep(Tell(w, a)) && InStep(Tell(w, b))
  {
    FreshTold(t, p, at, id, u, v);
    hide Tell, WellTold, Start;
    var w := World(Watch(id), Start(t, p, at, id).test);
    TellTold(w, a, u, v);
    TellTold(w, b, u, v);
  }

  // ---- A completed test heard everything ----

  /** What the observer must have seen to stand where it stands. */
  predicate Earned(o: Observer) {
    var n := Place(o.checkpoint);
    n <= 9 ==>
      && (n >= 1 ==> o.outgoing.utterance.Some?)
      && (n >= 2 ==> o.outgoing.transcriptFinal)
      && (n >= 3 ==> o.outgoing.translationFinal)
      && (n >= 4 ==> o.outgoing.firstAudio)
      && (n >= 6 ==> o.incoming.transcriptFinal)
      && (n >= 7 ==> o.incoming.translationFinal)
      && (n >= 8 ==> o.incoming.firstAudio)
      && (n >= 9 ==> o.incomingTerminal)
  }

  datatype Act = Taking(step: Step) | Finishing | Elsewhere(call: Call)

  /** The observer's steps, its completion, and whatever others do to the session. */
  function Perform(w: World, a: Act): World {
    match a
    case Taking(s) => Take(w, s).world
    case Finishing => MarkCompleted(w).world
    case Elsewhere(c) => w.(test := After(w.test, c))
  }

  function Acts(w: World, acts: seq<Act>): World {
    if acts == [] then w else Perform(Acts(w, acts[..|acts| - 1]), acts[|acts| - 1])
  }

  lemma {:induction false} DrainEarned(w: World, now: nat)
    requires Earned(w.observer)
    ensures Earned(Drain(w, now).observer)
    decreases 10 - Place(w.observer.checkpoint)
  {
    hide Advance, LatencyAt;
    var c := Allowed(w.observer);
    if c.Some? {
      var w1 := StepTo(w, c.value, LatencyAt(w.observer, c.value, now));
      if w1.observer.checkpoint == c.value { DrainEarned(w1, now); }
    }
  }

  lemma ActEarned(w: World, a: Act)
    requires Earned(w.observer)
    ensures Earned(Perform(w, a).observer)
  {
    hide Drain, Advance, After, Fail;
    if a.Taking? {
      match a.step
      case Noticing(n, now) =>
        DrainEarned(if n.direction.Microphone? then NoticeOutgoing(w, n) else NoticeIncoming(w, n), now);
      case Marking(ms, now) =>
        if w.observer.checkpoint.EnglishFirstAudio? {
          DrainEarned(StepTo(w, VirtualPeerReinjecting, NO_LATENCY.(englishComplete := Some(ms))), now);
        }
      case _ =>
    }
  }

  /** Whatever else happens to the session: an observer that completed saw, for both ways,
      the finals and the audio, and the end of the way back. */
  lemma {:induction false} CompletedHeardAll(id: Uuid, t: SelfTest, acts: seq<Act>)
    ensures var o := Acts(World(Watch(id), t), acts).observer;
            && Earned(o)
            && (o.checkpoint == Checkpoint.Completed ==>
                  && o.outgoing.transcriptFinal && o.outgoing.translationFinal && o.outgoing.firstAudio
                  && o.incoming.transcriptFinal && o.incoming.translationFinal && o.incoming.firstAudio
                     && o.incomingTerminal)
  {
    if acts != [] {
      hide Perform;
      CompletedHeardAll(id, t, acts[..|acts| - 1]);
      ActEarned(Acts(World(Watch(id), t), acts[..|acts| - 1]), acts[|acts| - 1]);
    }
  }
}
