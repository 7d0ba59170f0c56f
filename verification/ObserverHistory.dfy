/** What the observer of a self-test holds seen and timed, told from what it noticed. */
module ObserverHistory {
  import opened Wire
  import opened RoundTripModel
  import opened RoundTripRuns
  import H = RoundTripHistory

  // ---- Latencies ----

  /** Whole milliseconds since speech began, as far as 32 bits go. */
  function Since(onset: Option<nat>, now: nat): nat {
    if onset.None? then 0xFFFF_FFFF
    else if now <= onset.value then 0
    else if (now - onset.value) / 1_000_000 <= 0xFFFF_FFFF then (now - onset.value) / 1_000_000
    else 0xFFFF_FFFF
  }

  predicate Passes(w: World, w': World, place: nat) {
    Place(w.observer.checkpoint) < place <= Place(w'.observer.checkpoint)
  }

  ghost predicate Driven(w: World) {
    w.test.session.Some? && w.test.session.value.id == w.observer.id
  }

  /** The first English audio is timed from the beginning of the speech, the returned audio from
      the beginning of its own and from that of the first; nothing else is. */
  ghost predicate Timed(w: World, w': World, now: nat) {
    && Driven(w) && Driven(w')
    && w'.observer.outgoing == w.observer.outgoing && w'.observer.incoming == w.observer.incoming
    && var (l, l', o) := (w.test.session.value.latency, w'.test.session.value.latency, w.observer);
       && l'.outgoingFirst == (if Passes(w, w', 4) then Some(Since(o.outgoing.onsetNs, now)) else l.outgoingFirst)
       && l'.incomingFirst == (if Passes(w, w', 8) then Some(Since(o.incoming.onsetNs, now)) else l.incomingFirst)
       && l'.micToReturned == (if Passes(w, w', 8) then Some(Since(o.outgoing.onsetNs, now)) else l.micToReturned)
       && l'.englishComplete == l.englishComplete
       && Place(w.observer.checkpoint) <= Place(w'.observer.checkpoint)
  }

  lemma SameElapsed(onset: Option<nat>, now: nat)
    ensures ElapsedMs(onset, now) == Since(onset, now)
  {}

  lemma StepTimed(w: World, c: Checkpoint, now: nat)
    requires Driven(w) && Allowed(w.observer) == Some(c)
    ensures Timed(w, StepTo(w, c, LatencyAt(w.observer, c, now)), now)
  {
    SameElapsed(w.observer.outgoing.onsetNs, now);
    SameElapsed(w.observer.incoming.onsetNs, now);
    hide ElapsedMs, Since;
  }

  lemma TimedThrough(w: World, w1: World, w2: World, now: nat)
    requires Driven(w) && Timed(w, w1, now) && Timed(w1, w2, now)
    ensures Timed(w, w2, now)
  {
    hide Since;
  }

  /** Whatever draining passes is timed at that moment. */
  lemma {:induction false} DrainTimed(w: World, now: nat)
    requires Driven(w)
    ensures Timed(w, Drain(w, now), now)
    decreases 10 - Place(w.observer.checkpoint)
  {
    hide Since, StepTo, LatencyAt;
    var c := Allowed(w.observer);
    if c.Some? {
      var w1 := StepTo(w, c.value, LatencyAt(w.observer, c.value, now));
      StepTimed(w, c.value, now);
      if w1.observer.checkpoint == c.value {
        AllowedIsLater(w.observer, c.value);
        DrainTimed(w1, now);
        TimedThrough(w, w1, Drain(w1, now), now);
      }
    }
  }

  lemma AllowedIsLater(o: Observer, c: Checkpoint)
    requires Allowed(o) == Some(c)
    ensures Place(o.checkpoint) < Place(c)
  {}

  /** A notice by itself times nothing. */
  lemma NoticeUntimed(w: World, n: Notice)
    requires Driven(w)
    ensures var w1 := if n.direction.Microphone? then NoticeOutgoing(w, n) else NoticeIncoming(w, n);
            && Driven(w1) && w1.test.session.value.latency == w.test.session.value.latency
            && var (n, n1, failed) := (Place(w.observer.checkpoint), Place(w1.observer.checkpoint),
                                       w1.observer.checkpoint.Failed?);
               (n < 4 ==> n1 < 4 || failed) && (n >= 4 ==> n1 >= 4) && (n < 8 ==> n1 < 8 || failed)
  {}

  lemma FailedStays(w: World, now: nat)
    requires w.observer.checkpoint.Failed?
    ensures Drain(w, now) == w
  {}

  /** When what was noticed takes the test to the first English audio, or to the returned audio,
      that moment is timed from when the speech began. */
  lemma NoticedInTime(w: World, n: Notice, now: nat)
    requires Driven(w)
    ensures var w' := Observe(w, n, now);
            && Driven(w')
            && var (o, l, l') := (w'.observer, w.test.session.value.latency, w'.test.session.value.latency);
               !o.checkpoint.Failed? ==>
                 && l'.outgoingFirst ==
                      (if Passes(w, w', 4) then Some(Since(o.outgoing.onsetNs, now)) else l.outgoingFirst)
                 && l'.incomingFirst ==
                      (if Passes(w, w', 8) then Some(Since(o.incoming.onsetNs, now)) else l.incomingFirst)
                 && l'.micToReturned ==
                      (if Passes(w, w', 8) then Some(Since(o.outgoing.onsetNs, now)) else l.micToReturned)
  {
    var w1 := if n.direction.Microphone? then NoticeOutgoing(w, n) else NoticeIncoming(w, n);
    NoticeUntimed(w, n);
    DrainTimed(w1, now);
    if w1.observer.checkpoint.Failed? {
      FailedStays(w1, now);
    }
    hide NoticeOutgoing, NoticeIncoming, Drain, Since;
  }

  /** When speech that way was first noticed to begin. */
  function FirstSpeech(acts: seq<Act>, d: Direction): Option<nat> {
    if acts == [] then None
    else
      var (earlier, a) := (acts[..|acts| - 1], acts[|acts| - 1]);
      var first := FirstSpeech(earlier, d);
      if first.Some? then first
      else if a.Taking? && a.step.Noticing? && a.step.notice.SpeechStarted? && a.step.notice.direction == d
              && (d.Speaker? ==> WasEnabled(earlier))
      then Some(a.step.notice.captureNs)
      else None
  }

  predicate WasEnabled(acts: seq<Act>) {
    exists a <- acts :: a.Taking? && a.step.Enabling?
  }

  lemma EnabledMore(acts: seq<Act>, a: Act)
    ensures WasEnabled(acts + [a]) <==> WasEnabled(acts) || (a.Taking? && a.step.Enabling?)
  {
    assert forall x :: x in acts + [a] <==> x in acts || x == a;
  }

  lemma {:induction false} DrainHears(w: World, now: nat)
    ensures Heard(Drain(w, now).observer, w.observer)
    decreases 10 - Place(w.observer.checkpoint)
  {
    hide LatencyAt, Advance;
    var c := Allowed(w.observer);
    if c.Some? {
      var w1 := StepTo(w, c.value, LatencyAt(w.observer, c.value, now));
      if w1.observer.checkpoint == c.value { DrainHears(w1, now); }
    }
  }

  predicate Heard(o': Observer, o: Observer) {
    o'.outgoing == o.outgoing && o'.incoming == o.incoming && o'.incomingEnabled == o.incomingEnabled
  }

  predicate Known(l: Leg) {
    l.utterance.Some? <==> l.onsetNs.Some?
  }

  /** What a notice, or anything else, does to the times speech began. */
  predicate Begun(o: Observer, o': Observer, n: Option<Notice>) {
    var begins := n.Some? && n.value.SpeechStarted?;
    && Known(o'.outgoing) && Known(o'.incoming)
    && o'.outgoing.onsetNs ==
         (if o.outgoing.onsetNs.None? && begins && n.value.direction.Microphone?
          then Some(n.value.captureNs) else o.outgoing.onsetNs)
    && o'.incoming.onsetNs ==
         (if o.incoming.onsetNs.None? && begins && n.value.direction.Speaker? && o.incomingEnabled
          then Some(n.value.captureNs) else o.incoming.onsetNs)
  }

  lemma NoticeHears(w: World, n: Notice)
    requires Known(w.observer.outgoing) && Known(w.observer.incoming)
    ensures var w1 := if n.direction.Microphone? then NoticeOutgoing(w, n) else NoticeIncoming(w, n);
            Begun(w.observer, w1.observer, Some(n)) && w1.observer.incomingEnabled == w.observer.incomingEnabled
  {
    hide Advance, Fail, RecordRecursion;
  }

  lemma MarkHears(w: World, ms: nat, now: nat)
    ensures Heard(MarkReinjecting(w, ms, now).world.observer, w.observer)
  {
    hide Drain, Advance;
    DrainHears(StepTo(w, VirtualPeerReinjecting, NO_LATENCY.(englishComplete := Some(ms))), now);
  }

  lemma FinishHears(w: World)
    ensures Heard(MarkCompleted(w).world.observer, w.observer)
  {
    hide Advance;
  }

  /** What one act does to the times speech began. */
  lemma ActHears(w: World, a: Act)
    requires Known(w.observer.outgoing) && Known(w.observer.incoming)
    ensures var (o, o') := (w.observer, Perform(w, a).observer);
            && o'.incomingEnabled == (o.incomingEnabled || (a.Taking? && a.step.Enabling?))
            && Begun(o, o', if a.Taking? && a.step.Noticing? then Some(a.step.notice) else None)
  {
    hide Drain, Advance, After, Fail, RecordRecursion, NoticeOutgoing, NoticeIncoming, MarkReinjecting, MarkCompleted,
         SetProof;
    FinishHears(w);
    if a.Taking? {
      match a.step
      case Noticing(n, now) =>
        NoticeHears(w, n);
        DrainHears(if n.direction.Microphone? then NoticeOutgoing(w, n) else NoticeIncoming(w, n), now);
      case Marking(ms, now) => MarkHears(w, ms, now);
      case _ =>
    }
  }

  /** Over every run, the times the latencies are measured from are those of the first speech
      each way, on the way back only once that was let in. */
  lemma {:induction false} OnsetIsFirst(id: Uuid, t: SelfTest, acts: seq<Act>)
    ensures var o := Acts(World(Watch(id), t), acts).observer;
            && o.outgoing.onsetNs == FirstSpeech(acts, Microphone)
            && o.incoming.onsetNs == FirstSpeech(acts, Speaker)
            && Known(o.outgoing) && Known(o.incoming) && o.incomingEnabled == WasEnabled(acts)
  {
    if acts != [] {
      var (earlier, a) := (acts[..|acts| - 1], acts[|acts| - 1]);
      assert acts == earlier + [a];
      hide Perform, WasEnabled;
      OnsetIsFirst(id, t, earlier);
      ActHears(Acts(World(Watch(id), t), earlier), a);
      EnabledMore(earlier, a);
    }
  }

  // ---- How long the returned speech can be heard ----

  predicate BeginsIn(acts: seq<Act>, a: Act, d: Direction) {
    && a.Taking? && a.step.Noticing? && a.step.notice.SpeechStarted? && a.step.notice.direction == d
    && (d.Speaker? ==> WasEnabled(acts))
  }

  /** Which speech is watched that way: the first to begin, on the way back once it was let in. */
  function Watched(acts: seq<Act>, d: Direction): Option<Uuid> {
    if acts == [] then None
    else
      var (earlier, a) := (acts[..|acts| - 1], acts[|acts| - 1]);
      if Watched(earlier, d).Some? then Watched(earlier, d)
      else if BeginsIn(earlier, a, d) then Some(a.step.notice.utterance)
      else None
  }

  /** When its frames were noticed. */
  function Sounds(acts: seq<Act>): seq<nat> {
    if acts == [] then []
    else
      var (earlier, a) := (acts[..|acts| - 1], acts[|acts| - 1]);
      var sounds := a.Taking? && a.step.Noticing? && a.step.notice.AudioFrame? && a.step.notice.direction.Speaker?
                    && Watched(earlier, Speaker) == Some(a.step.notice.utterance);
      Sounds(earlier) + if sounds then [a.step.notice.observedNs] else []
  }

  /** When the frames from the `k`-th on are over, if they are played one by one from then. */
  function OverBy(times: seq<nat>, k: nat): nat
    requires k < |times|
  {
    times[k] + 20_000_000 * (|times| - k)
  }

  function Capped(t: nat): nat {
    if t <= 0xFFFF_FFFF_FFFF_FFFF then t else 0xFFFF_FFFF_FFFF_FFFF
  }

  /** The last of them is over when the latest of these ends, as far as the clock goes. */
  ghost predicate HeardUntil(times: seq<nat>, until: nat) {
    if times == [] then until == 0
    else exists k :: 0 <= k < |times| && LatestOver(times, k) && until == Capped(OverBy(times, k))
  }

  ghost predicate LatestOver(times: seq<nat>, k: nat) {
    k < |times| && forall j :: 0 <= j < |times| ==> OverBy(times, j) <= OverBy(times, k)
  }

  lemma OverByMore(times: seq<nat>, t: nat)
    ensures OverBy(times + [t], |times|) == t + 20_000_000
    ensures forall j :: 0 <= j < |times| ==> OverBy(times + [t], j) == OverBy(times, j) + 20_000_000
  {
    forall j | 0 <= j < |times| ensures OverBy(times + [t], j) == OverBy(times, j) + 20_000_000 {
      assert (times + [t])[j] == times[j];
    }
  }

  lemma LatestMore(times: seq<nat>, t: nat, k: nat)
    requires LatestOver(times, k)
    ensures LatestOver(times + [t], if OverBy(times, k) <= t then |times| else k)
  {
    hide OverBy;
    OverByMore(times, t);
  }

  lemma AudibleIs(over: nat, t: nat)
    ensures Audible(Capped(over), t) == Capped((if over <= t then t else over) + 20_000_000)
  {}

  lemma OneMoreSound(times: seq<nat>, until: nat, t: nat)
    requires HeardUntil(times, until)
    ensures HeardUntil(times + [t], Audible(until, t))
  {
    hide OverBy, LatestOver, Audible, Capped;
    OverByMore(times, t);
    if times == [] {
      FirstSound(t);
      assert times + [t] == [t];
    } else {
      var k :| 0 <= k < |times| && LatestOver(times, k) && until == Capped(OverBy(times, k));
      LatestMore(times, t, k);
      AudibleIs(OverBy(times, k), t);
    }
  }

  lemma FirstSound(t: nat)
    ensures LatestOver([t], 0) && Audible(0, t) == Capped(OverBy([t], 0))
  {}

  lemma {:induction false} DrainSilent(w: World, now: nat)
    ensures Drain(w, now).observer.audibleUntilNs == w.observer.audibleUntilNs
    decreases 10 - Place(w.observer.checkpoint)
  {
    hide LatencyAt, Advance;
    var c := Allowed(w.observer);
    if c.Some? {
      var w1 := StepTo(w, c.value, LatencyAt(w.observer, c.value, now));
      if w1.observer.checkpoint == c.value { DrainSilent(w1, now); }
    }
  }

  predicate BeginsBack(o: Observer, a: Act) {
    && a.Taking? && a.step.Noticing? && a.step.notice.SpeechStarted? && a.step.notice.direction.Speaker?
    && o.incomingEnabled
  }

  predicate SoundsBack(o: Observer, a: Act) {
    && a.Taking? && a.step.Noticing? && a.step.notice.AudioFrame? && a.step.notice.direction.Speaker?
    && o.incoming.utterance == Some(a.step.notice.utterance)
  }

  lemma NoticeSounds(w: World, n: Notice, now: nat)
    requires w.observer.incoming.utterance.Some? ==> w.observer.incomingEnabled
    ensures var (o, a) := (w.observer, Taking(Noticing(n, now)));
            var o' := (if n.direction.Microphone? then NoticeOutgoing(w, n) else NoticeIncoming(w, n)).observer;
            && o'.audibleUntilNs ==
                 (if SoundsBack(o, a) then Audible(o.audibleUntilNs, n.observedNs) else o.audibleUntilNs)
            && o'.incoming.utterance ==
                 (if o.incoming.utterance.None? && BeginsBack(o, a) then Some(n.utterance) else o.incoming.utterance)
  {
    hide Advance, Fail, RecordRecursion, Audible;
  }

  lemma MarkSilent(w: World, ms: nat, now: nat)
    ensures MarkReinjecting(w, ms, now).world.observer.audibleUntilNs == w.observer.audibleUntilNs
    ensures MarkCompleted(w).world.observer.audibleUntilNs == w.observer.audibleUntilNs
  {
    hide Drain, Advance;
    DrainSilent(StepTo(w, VirtualPeerReinjecting, NO_LATENCY.(englishComplete := Some(ms))), now);
  }

  /** What one act does to the returned speech and to how long it can be heard. */
  lemma ActSounds(w: World, a: Act)
    requires w.observer.incoming.utterance.Some? ==> w.observer.incomingEnabled
    ensures var (o, o') := (w.observer, Perform(w, a).observer);
            && o'.audibleUntilNs ==
                 (if SoundsBack(o, a) then Audible(o.audibleUntilNs, a.step.notice.observedNs) else o.audibleUntilNs)
            && o'.incoming.utterance ==
                 (if o.incoming.utterance.None? && BeginsBack(o, a) then Some(a.step.notice.utterance)
                  else o.incoming.utterance)
  {
    hide Drain, Advance, After, Fail, RecordRecursion, NoticeOutgoing, NoticeIncoming, MarkReinjecting, MarkCompleted,
         SetProof, Audible;
    FinishHears(w);
    MarkSilent(w, 0, 0);
    if a.Taking? {
      match a.step
      case Noticing(n, now) =>
        NoticeSounds(w, n, now);
        DrainSilent(if n.direction.Microphone? then NoticeOutgoing(w, n) else NoticeIncoming(w, n), now);
        DrainHears(if n.direction.Microphone? then NoticeOutgoing(w, n) else NoticeIncoming(w, n), now);
      case Marking(ms, now) => MarkHears(w, ms, now); MarkSilent(w, ms, now);
      case _ =>
    }
  }

  /** Over every run, the observer knows how long the returned speech can be heard: its frames,
      20 ms each, played one after the other and none before it was noticed. */
  lemma {:induction false} HeardUntilTold(id: Uuid, t: SelfTest, acts: seq<Act>)
    ensures var o := Acts(World(Watch(id), t), acts).observer;
            && HeardUntil(Sounds(acts), o.audibleUntilNs)
            && o.incoming.utterance == Watched(acts, Speaker) && o.incomingEnabled == WasEnabled(acts)
            && (o.incoming.utterance.Some? ==> o.incomingEnabled)
  {
    OnsetIsFirst(id, t, acts);
    if acts != [] {
      var (earlier, a) := (acts[..|acts| - 1], acts[|acts| - 1]);
      assert acts == earlier + [a];
      hide Perform, WasEnabled, HeardUntil, Audible;
      HeardUntilTold(id, t, earlier);
      var w := Acts(World(Watch(id), t), earlier);
      ActSounds(w, a);
      EnabledMore(earlier, a);
      assert acts[..|acts| - 1] == earlier && acts[|acts| - 1] == a;
      assert Sounds(acts) ==
             if SoundsBack(w.observer, a) then Sounds(earlier) + [a.step.notice.observedNs] else Sounds(earlier);
      if SoundsBack(w.observer, a) {
        OneMoreSound(Sounds(earlier), w.observer.audibleUntilNs, a.step.notice.observedNs);
      }
    }
  }

  // ---- What was seen of each way ----

  datatype Kind = Transcript | Translation | Audio | WholeEnd | End

  predicate Is(n: Notice, kind: Kind) {
    match kind
    case Transcript => n.TranscriptFinal?
    case Translation => n.TranslationFinal?
    case Audio => n.AudioFrame?
    case WholeEnd => n.TerminalOutcome? && n.outcome.Completed?
    case End => n.UtteranceTerminal?
  }

  /** Such a thing was noticed of the speech watched that way, and not of any other. */
  predicate Noticed(acts: seq<Act>, d: Direction, kind: Kind) {
    acts != [] &&
    var (earlier, a) := (acts[..|acts| - 1], acts[|acts| - 1]);
    || Noticed(earlier, d, kind)
    || (&& a.Taking? && a.step.Noticing? && a.step.notice.direction == d && Is(a.step.notice, kind)
        && Watched(earlier, d) == Some(a.step.notice.utterance))
  }

  predicate NoticedNow(l: Leg, a: Act, d: Direction, kind: Kind) {
    && a.Taking? && a.step.Noticing? && a.step.notice.direction == d && Is(a.step.notice, kind)
    && l.utterance == Some(a.step.notice.utterance)
  }

  /** How a leg goes on with one act. */
  predicate LegGoesOn(l: Leg, l': Leg, a: Act, d: Direction, open: bool) {
    && l'.utterance == (if l.utterance.Some? || !open then l.utterance
                        else if a.Taking? && a.step.Noticing? && a.step.notice.SpeechStarted?
                                && a.step.notice.direction == d then Some(a.step.notice.utterance)
                        else None)
    && l'.firstAudio == (l.firstAudio || NoticedNow(l, a, d, Audio))
    && l'.completed == (l.completed || NoticedNow(l, a, d, WholeEnd))
    && (l'.transcriptFinal <==>
          l.transcriptFinal || NoticedNow(l, a, d, Transcript) || (l'.firstAudio && l'.completed))
    && (l'.translationFinal <==>
          l.translationFinal || NoticedNow(l, a, d, Translation) || (l'.firstAudio && l'.completed))
  }

  /** Audio and a completed end stand for the finals. */
  predicate LegSound(l: Leg) {
    l.firstAudio && l.completed ==> l.transcriptFinal && l.translationFinal
  }

  predicate Sound(o: Observer) {
    && LegSound(o.outgoing) && LegSound(o.incoming) && (o.incoming.utterance.Some? ==> o.incomingEnabled)
  }

  lemma LegLearns(l: Leg, n: Notice, now: nat, open: bool)
    requires LegSound(l) && l.utterance == Some(n.utterance) && !n.SpeechStarted? && !n.UtteranceTerminal?
    requires n.TerminalOutcome? ==> n.outcome.Completed?
    ensures LegGoesOn(l, Learn(l, n), Taking(Noticing(n, now)), n.direction, open)
  {}

  lemma LegPasses(l: Leg, n: Notice, now: nat, open: bool)
    requires LegSound(l)
    requires if n.SpeechStarted? then l.utterance.Some? || !open
             else l.utterance != Some(n.utterance) || n.UtteranceTerminal?
                  || (n.TerminalOutcome? && !n.outcome.Completed?)
    ensures LegGoesOn(l, l, Taking(Noticing(n, now)), n.direction, open)
  {}

  lemma LegBegins(l: Leg, n: Notice, now: nat)
    requires LegSound(l) && l.utterance.None? && n.SpeechStarted?
    ensures LegGoesOn(l, l.(utterance := Some(n.utterance), onsetNs := Some(n.captureNs)), Taking(Noticing(n, now)),
                      n.direction, true)
  {}

  lemma OutgoingLegs(w: World, n: Notice, now: nat)
    requires Sound(w.observer) && n.direction.Microphone?
    ensures var (o, o', a) := (w.observer, NoticeOutgoing(w, n).observer, Taking(Noticing(n, now)));
            && LegGoesOn(o.outgoing, o'.outgoing, a, Microphone, true) && o'.incoming == o.incoming
            && o'.incomingEnabled == o.incomingEnabled && o'.incomingTerminal == o.incomingTerminal
  {
    hide Advance, Fail, RecordRecursion, LegGoesOn, Learn;
    var l := w.observer.outgoing;
    if n.SpeechStarted? && l.utterance.None? {
      LegBegins(l, n, now);
    } else if n.SpeechStarted? || l.utterance != Some(n.utterance) || n.UtteranceTerminal?
              || (n.TerminalOutcome? && !n.outcome.Completed?) {
      LegPasses(l, n, now, true);
    } else {
      LegLearns(l, n, now, true);
    }
  }

  lemma IncomingLegs(w: World, n: Notice, now: nat)
    requires Sound(w.observer) && n.direction.Speaker?
    ensures var (o, o', a) := (w.observer, NoticeIncoming(w, n).observer, Taking(Noticing(n, now)));
            && LegGoesOn(o.incoming, o'.incoming, a, Speaker, o.incomingEnabled) && o'.outgoing == o.outgoing
            && o'.incomingEnabled == o.incomingEnabled
            && o'.incomingTerminal == (o.incomingTerminal || NoticedNow(o.incoming, a, Speaker, End))
  {
    hide Advance, Fail, RecordRecursion, Audible, LegGoesOn, Learn;
    var (l, open) := (w.observer.incoming, w.observer.incomingEnabled);
    if open && n.SpeechStarted? && l.utterance.None? {
      LegBegins(l, n, now);
    } else if n.SpeechStarted? || l.utterance != Some(n.utterance) || n.UtteranceTerminal?
              || (n.TerminalOutcome? && !n.outcome.Completed?) {
      LegPasses(l, n, now, open);
    } else {
      LegLearns(l, n, now, open);
    }
  }

  lemma LegStays(l: Leg, a: Act, d: Direction, open: bool)
    requires LegSound(l) && (a.Taking? && a.step.Noticing? ==> a.step.notice.direction != d)
    ensures LegGoesOn(l, l, a, d, open)
  {}

  lemma {:induction false} DrainKeepsEnd(w: World, now: nat)
    ensures Drain(w, now).observer.incomingTerminal == w.observer.incomingTerminal
    decreases 10 - Place(w.observer.checkpoint)
  {
    hide LatencyAt, Advance;
    var c := Allowed(w.observer);
    if c.Some? {
      var w1 := StepTo(w, c.value, LatencyAt(w.observer, c.value, now));
      if w1.observer.checkpoint == c.value { DrainKeepsEnd(w1, now); }
    }
  }

  lemma MarkKeepsEnd(w: World, ms: nat, now: nat)
    ensures MarkReinjecting(w, ms, now).world.observer.incomingTerminal == w.observer.incomingTerminal
    ensures MarkCompleted(w).world.observer.incomingTerminal == w.observer.incomingTerminal
  {
    hide Drain, Advance;
    DrainKeepsEnd(StepTo(w, VirtualPeerReinjecting, NO_LATENCY.(englishComplete := Some(ms))), now);
  }

  ghost predicate ObserverGoesOn(o: Observer, o': Observer, a: Act) {
    && LegGoesOn(o.outgoing, o'.outgoing, a, Microphone, true)
    && LegGoesOn(o.incoming, o'.incoming, a, Speaker, o.incomingEnabled)
    && o'.incomingEnabled == (o.incomingEnabled || (a.Taking? && a.step.Enabling?))
    && o'.incomingTerminal == (o.incomingTerminal || NoticedNow(o.incoming, a, Speaker, End))
  }

  lemma ActLegs(w: World, a: Act)
    requires Sound(w.observer)
    ensures ObserverGoesOn(w.observer, Perform(w, a).observer, a)
  {
    hide Drain, Advance, After, Fail, RecordRecursion, NoticeOutgoing, NoticeIncoming, MarkReinjecting, MarkCompleted,
         SetProof, LegGoesOn;
    FinishHears(w);
    MarkKeepsEnd(w, 0, 0);
    var o := w.observer;
    if !(a.Taking? && a.step.Noticing? && a.step.notice.direction.Microphone?) {
      LegStays(o.outgoing, a, Microphone, true);
    }
    if !(a.Taking? && a.step.Noticing? && a.step.notice.direction.Speaker?) {
      LegStays(o.incoming, a, Speaker, o.incomingEnabled);
    }
    if a.Taking? {
      match a.step
      case Noticing(n, now) =>
        if n.direction.Microphone? { OutgoingLegs(w, n, now); } else { IncomingLegs(w, n, now); }
        var w1 := if n.direction.Microphone? then NoticeOutgoing(w, n) else NoticeIncoming(w, n);
        DrainHears(w1, now);
        DrainKeepsEnd(w1, now);
      case Marking(ms, now) => MarkHears(w, ms, now); MarkKeepsEnd(w, ms, now);
      case _ =>
    }
  }

  predicate LegTold(l: Leg, acts: seq<Act>, d: Direction) {
    var both := Noticed(acts, d, Audio) && Noticed(acts, d, WholeEnd);
    && l.utterance == Watched(acts, d)
    && l.firstAudio == Noticed(acts, d, Audio) && l.completed == Noticed(acts, d, WholeEnd)
    && l.transcriptFinal == (Noticed(acts, d, Transcript) || both)
    && l.translationFinal == (Noticed(acts, d, Translation) || both)
  }

  lemma LegMore(l: Leg, l': Leg, earlier: seq<Act>, a: Act, d: Direction)
    requires LegTold(l, earlier, d) && LegGoesOn(l, l', a, d, d.Speaker? ==> WasEnabled(earlier))
    ensures LegTold(l', earlier + [a], d)
  {
    var acts := earlier + [a];
    assert acts[..|acts| - 1] == earlier && acts[|acts| - 1] == a;
    forall kind ensures Noticed(acts, d, kind) <==> Noticed(earlier, d, kind) || NoticedNow(l, a, d, kind) {}
    hide WasEnabled, Noticed;
  }

  /** Over every run, what the observer holds seen of each way is what was noticed of the speech
      watched that way; audio and a completed end stand for the finals. */
  lemma {:induction false} SeenIsNoticed(id: Uuid, t: SelfTest, acts: seq<Act>)
    ensures var o := Acts(World(Watch(id), t), acts).observer;
            && LegTold(o.outgoing, acts, Microphone) && LegTold(o.incoming, acts, Speaker)
            && o.incomingTerminal == Noticed(acts, Speaker, End)
            && o.incomingEnabled == WasEnabled(acts) && Sound(o)
  {
    if acts != [] {
      var (earlier, a) := (acts[..|acts| - 1], acts[|acts| - 1]);
      assert acts == earlier + [a];
      SeenIsNoticed(id, t, earlier);
      hide Perform, WasEnabled, LegTold;
      var o := Acts(World(Watch(id), t), earlier).observer;
      var o' := Acts(World(Watch(id), t), acts).observer;
      ActLegs(Acts(World(Watch(id), t), earlier), a);
      EnabledMore(earlier, a);
      LegMore(o.outgoing, o'.outgoing, earlier, a, Microphone);
      LegMore(o.incoming, o'.incoming, earlier, a, Speaker);
      EndTold(o.incoming, earlier, a);
    }
  }

  lemma EndTold(l: Leg, earlier: seq<Act>, a: Act)
    requires LegTold(l, earlier, Speaker)
    ensures Noticed(earlier + [a], Speaker, End) <==>
              Noticed(earlier, Speaker, End) || NoticedNow(l, a, Speaker, End)
  {
    var acts := earlier + [a];
    assert acts[..|acts| - 1] == earlier && acts[|acts| - 1] == a;
  }

  /** The test fails exactly when the speech watched ends without being completed, if the session
      still runs; nothing else noticed fails it. */
  lemma FailsIff(w: World, n: Notice, now: nat)
    requires Driven(w) && w.test.session.value.checkpoint == w.observer.checkpoint && !H.Over(w.observer.checkpoint)
    ensures Observe(w, n, now).observer.checkpoint.Failed? <==>
              && n.TerminalOutcome? && !n.outcome.Completed?
              && (if n.direction.Microphone? then w.observer.outgoing.utterance == Some(n.utterance)
                  else w.observer.incomingEnabled && w.observer.incoming.utterance == Some(n.utterance))
  {
    var w1 := if n.direction.Microphone? then NoticeOutgoing(w, n) else NoticeIncoming(w, n);
    DrainNeverFails(w1, now);
    hide Drain, Audible;
  }

  lemma {:induction false} DrainNeverFails(w: World, now: nat)
    ensures Drain(w, now).observer.checkpoint.Failed? <==> w.observer.checkpoint.Failed?
    decreases 10 - Place(w.observer.checkpoint)
  {
    hide LatencyAt, Advance;
    var c := Allowed(w.observer);
    if c.Some? {
      var w1 := StepTo(w, c.value, LatencyAt(w.observer, c.value, now));
      if w1.observer.checkpoint == c.value { DrainNeverFails(w1, now); }
    }
  }
}
