/** Whole runs of a provider session: every frame it accepted, every event it returned,
    and what the two have to do with each other, utterance by utterance. */
module EngineTraces {
  import opened Wire
  import opened Figures
  import opened EngineModel
  import opened EngineRuns

  /** A run so far.  Once a call raised, the transport ends the stream. */
  datatype Trace = Trace(session: Session, accepted: seq<Frame>, events: seq<Event>, raised: bool)

  predicate Queues(op: Op, r: Reply) {
    op.Enqueue? && r.answer == Events([])
  }

  ghost function Extend(inj: Injection, t: Trace, op: Op): Trace
    requires Inv(t.session)
  {
    if t.raised then t
    else
      var r := Apply(inj, t.session, op);
      match r.answer
      case Raised(_) => t.(session := r.session, raised := true)
      case Events(es) =>
        Trace(r.session, if Queues(op, r) then t.accepted + [op.frame] else t.accepted, t.events + es, false)
  }

  ghost function Start(request: OpenRequest): Trace {
    Trace(Opened(request), [], [OpenedEvent(request)], false)
  }

  ghost function Run(inj: Injection, request: OpenRequest, ops: seq<Op>): (t: Trace)
    requires Openable(request)
    ensures Inv(t.session)
  {
    if ops == [] then Start(request)
    else
      var t := Run(inj, request, ops[..|ops| - 1]);
      ApplyKeepsInv(inj, t.session, ops[|ops| - 1]);
      Extend(inj, t, ops[|ops| - 1])
  }

  lemma NoneYet(inj: Injection, request: OpenRequest)
    requires Openable(request)
    ensures Run(inj, request, []) == Start(request)
  {}

  /** The last call of a run in which none raised. */
  lemma OneMore(inj: Injection, request: OpenRequest, ops: seq<Op>)
    requires Openable(request) && ops != [] && !Run(inj, request, ops).raised
    ensures var (t, t') := (Run(inj, request, ops[..|ops| - 1]), Run(inj, request, ops));
            var r := Apply(inj, t.session, ops[|ops| - 1]);
            && !t.raised && r.answer.Events?
            && t'.session == r.session && t'.events == t.events + r.answer.events
  {
    hide Apply, Inv;
  }

  // ---- Reading a run, one utterance at a time ----

  /** The events about one utterance, in order. */
  function About(es: seq<Event>, u: Uuid): seq<Event> {
    if es == [] then []
    else About(es[..|es| - 1], u) + (if es[|es| - 1].Subject() == Some(u) then [es[|es| - 1]] else [])
  }

  /** The audio of one utterance, in order. */
  function AudioOf(es: seq<Event>, u: Uuid): (r: seq<Event>)
    ensures forall e <- r :: e.AudioDelta? && e.utterance == u
  {
    if es == [] then []
    else
      var e := es[|es| - 1];
      AudioOf(es[..|es| - 1], u) + (if e.AudioDelta? && e.utterance == u then [e] else [])
  }

  function FramesOf(fs: seq<Frame>, u: Uuid): seq<Frame> {
    if fs == [] then []
    else FramesOf(fs[..|fs| - 1], u) + (if fs[|fs| - 1].utterance == u then [fs[|fs| - 1]] else [])
  }

  lemma Snoc(es: seq<Event>, e: Event, u: Uuid)
    ensures About(es + [e], u) == if e.Subject() == Some(u) then About(es, u) + [e] else About(es, u)
    ensures AudioOf(es + [e], u) == if e.AudioDelta? && e.utterance == u then AudioOf(es, u) + [e] else AudioOf(es, u)
  {
    assert (es + [e])[..|es|] == es;
  }

  /** The frame as it is played: its samples reversed, in its own format and stream, while it
      is not too old. */
  predicate Plays(mode: Mode, e: Event, f: Frame) {
    && e.AudioDelta? && e.stream == f.stream && e.format == f.format
    && |f.pcm| % 2 == 0 && e.pcm == ReverseSamples(f.pcm)
    && e.providerNs - f.captureNs <= OldestNs(mode)
  }

  /** The audio of an utterance is its frames, in capture order, numbered 0, 1, 2, ... */
  ghost predicate AudioIsPrefix(mode: Mode, audio: seq<Event>, frames: seq<Frame>) {
    && |audio| <= |frames|
    && forall i :: 0 <= i < |audio| ==> Plays(mode, audio[i], frames[i]) && audio[i].audioSequence == i
  }

  predicate EndsWithFinal(about: seq<Event>) {
    about != [] && about[|about| - 1].UtteranceFinal?
  }

  /** At most one final: if there is one it is the last event about the utterance, and it
      names the last audio emitted. */
  ghost predicate FinalEnds(about: seq<Event>, audio: seq<Event>) {
    && (forall i :: 0 <= i < |about| - 1 ==> !about[i].UtteranceFinal?)
    && (EndsWithFinal(about) ==> about[|about| - 1].finalAudio == LastOf(|audio|))
  }

  /** Where the session thinks an utterance stands, against what the run shows. */
  datatype Standing = Standing(open: bool, terminal: bool, closed: bool, lastAudio: Option<nat>, mode: Mode)

  ghost predicate Story(about: seq<Event>, audio: seq<Event>, frames: seq<Frame>, at: Standing) {
    && AudioIsPrefix(at.mode, audio, frames)
    && FinalEnds(about, audio)
    && (at.terminal <==> EndsWithFinal(about))
    && (at.open ==> !at.terminal && at.lastAudio == LastOf(|audio|))
    && (!at.open && !at.terminal && !at.closed ==> about == [] && frames == [])
  }

  ghost function StandingOf(s: Session, u: Uuid): Standing {
    Standing(u in s.streams, u in s.terminal, s.closed, Lookup(s.lastAudio, u), s.request.mode)
  }

  ghost predicate Told(t: Trace, u: Uuid) {
    Story(About(t.events, u), AudioOf(t.events, u), FramesOf(t.accepted, u), StandingOf(t.session, u))
  }

  /** Nothing is lost on the way: what an open utterance was given and has not emitted is queued. */
  ghost predicate Conserved(t: Trace, u: Uuid) {
    u in t.session.streams ==>
      var (audio, frames) := (AudioOf(t.events, u), FramesOf(t.accepted, u));
      |audio| <= |frames| && frames[|audio|..] == FramesIn(t.session.output, u) + FramesIn(t.session.input, u)
  }

  ghost predicate Numbered(t: Trace) {
    t.session.eventSequence == |t.events| && InSequence(t.events)
  }

  ghost predicate InSequence(es: seq<Event>) {
    forall i :: 0 <= i < |es| ==> es[i].header.sequence == i + 1
  }

  /** A run in good order, where the frames of one utterance may be on the move. */
  ghost predicate GoodBut(t: Trace, moving: Option<Uuid>) {
    && Inv(t.session)
    && Numbered(t)
    && (forall u :: Told(t, u))
    && (forall u :: moving != Some(u) ==> Conserved(t, u))
  }

  // ---- How one utterance's story goes on ----

  lemma StoryEnds(about: seq<Event>, audio: seq<Event>, frames: seq<Frame>, at: Standing, e: Event, at': Standing)
    requires Story(about, audio, frames, at) && at.open
    requires e.UtteranceFinal? && e.finalAudio == at.lastAudio && !at'.open && at'.terminal && at'.mode == at.mode
    ensures Story(about + [e], audio, frames, at')
  {}

  lemma StoryRemark(about: seq<Event>, audio: seq<Event>, frames: seq<Frame>, at: Standing, e: Event)
    requires Story(about, audio, frames, at) && at.open && !e.UtteranceFinal?
    ensures Story(about + [e], audio, frames, at)
  {}

  lemma StoryAudio(about: seq<Event>, audio: seq<Event>, frames: seq<Frame>, at: Standing, e: Event)
    requires Story(about, audio, frames, at) && at.open && |audio| < |frames|
    requires e.AudioDelta? && e.audioSequence == |audio| && Plays(at.mode, e, frames[|audio|])
    ensures Story(about + [e], audio + [e], frames, at.(lastAudio := Some(|audio|)))
  {}

  lemma StoryFrame(about: seq<Event>, audio: seq<Event>, frames: seq<Frame>, at: Standing, f: Frame, at': Standing)
    requires Story(about, audio, frames, at) && !at.terminal && !at.closed
    requires at'.open && !at'.terminal && at'.mode == at.mode
    requires at'.lastAudio == if at.open then at.lastAudio else None
    ensures Story(about, audio, frames + [f], at')
  {}

  // ---- Small steps that runs are made of ----

  /** The run after one more event, from the session's new state. */
  ghost function Say(t: Trace, s: Session, e: Event): Trace {
    t.(session := s, events := t.events + [e])
  }

  lemma NumberedSay(t: Trace, s: Session, e: Event)
    requires Numbered(t) && s.eventSequence == t.session.eventSequence + 1 == e.header.sequence
    ensures Numbered(Say(t, s, e))
  {}

  lemma TerminateTold(t: Trace, stream: Uuid, x: Uuid, outcome: Outcome, u: Uuid)
    requires Told(t, u) && x in t.session.streams && (u != x ==> Conserved(t, u))
    requires Terminate(t.session, stream, x, outcome).answer.Events?
    ensures var t' := Say(t, Terminate(t.session, stream, x, outcome).session, FinalOf(t.session, stream, x, outcome));
            Told(t', u) && Conserved(t', u)
  {
    hide Story, About, AudioOf, FramesOf, FramesIn, Without, MsOf;
    var (s, s') := (t.session, Terminate(t.session, stream, x, outcome).session);
    var e := FinalOf(s, stream, x, outcome);
    Snoc(t.events, e, u);
    FramesInWithout(s.input, x, u);
    FramesInWithout(s.output, x, u);
    if u == x {
      var (audio, frames) := (AudioOf(t.events, u), FramesOf(t.accepted, u));
      StoryEnds(About(t.events, u), audio, frames, StandingOf(s, u), e, StandingOf(s', u));
    } else {
      assert StandingOf(s', u) == StandingOf(s, u);
    }
  }

  lemma TerminateStep(t: Trace, stream: Uuid, x: Uuid, outcome: Outcome)
    requires GoodBut(t, Some(x)) && x in t.session.streams
    requires Terminate(t.session, stream, x, outcome).answer.Events?
    ensures var (s, e) := (Terminate(t.session, stream, x, outcome).session, FinalOf(t.session, stream, x, outcome));
            GoodBut(Say(t, s, e), None)
  {
    TerminateKeepsInv(t.session, stream, x, outcome);
    hide Inv, Told, Conserved, Numbered;
    NumberedSay(t, Terminate(t.session, stream, x, outcome).session, FinalOf(t.session, stream, x, outcome));
    forall u {
      TerminateTold(t, stream, x, outcome, u);
    }
  }

  /** An event about an open utterance, or about none, that neither plays nor ends it. */
  lemma RemarkStep(t: Trace, moving: Option<Uuid>, e: Event)
    requires GoodBut(t, moving) && e.header.sequence == t.session.eventSequence + 1
    requires !e.AudioDelta? && !e.UtteranceFinal?
    requires e.Subject().Some? ==> e.Subject().value in t.session.streams
    ensures GoodBut(Say(t, t.session.(eventSequence := t.session.eventSequence + 1), e), moving)
  {
    hide Inv, Story, About, AudioOf, FramesOf, FramesIn, Numbered;
    var s' := t.session.(eventSequence := t.session.eventSequence + 1);
    NumberedSay(t, s', e);
    SameInv(t.session, s');
    forall u ensures Told(Say(t, s', e), u) && (moving != Some(u) ==> Conserved(Say(t, s', e), u)) {
      Snoc(t.events, e, u);
      assert Told(t, u);
      assert moving != Some(u) ==> Conserved(t, u);
      assert StandingOf(s', u) == StandingOf(t.session, u);
      if e.Subject() == Some(u) {
        StoryRemark(About(t.events, u), AudioOf(t.events, u), FramesOf(t.accepted, u), StandingOf(s', u), e);
      }
    }
  }

  /** Counters and text settings are no part of the invariant. */
  lemma SameInv(s: Session, s': Session)
    requires Inv(s)
    requires s' == s.(eventSequence := s'.eventSequence, processed := s'.processed, debugText := s'.debugText)
    ensures Inv(s')
  {}

  /** What an utterance has left when its next frame was just taken off a queue. */
  ghost predicate InHand(t: Trace, f: Frame) {
    var (audio, frames) := (AudioOf(t.events, f.utterance), FramesOf(t.accepted, f.utterance));
    && |audio| <= |frames|
    && frames[|audio|..] ==
         FramesIn(t.session.output, f.utterance) + [f] + FramesIn(t.session.input, f.utterance)
  }

  lemma FramesInPop(q: seq<Queued>, u: Uuid)
    requires q != []
    ensures FramesIn(q, u) == if q[0].frame.utterance == u then [q[0].frame] + FramesIn(q[1..], u)
            else FramesIn(q[1..], u)
  {}

  /** Taking a frame off a queue leaves the other utterances as they were. */
  lemma OthersKept(t: Trace, s': Session, x: Uuid)
    requires GoodBut(t, None) && Inv(s')
    requires s' == t.session.(input := s'.input, inputMs := s'.inputMs, output := s'.output, outputMs := s'.outputMs)
    requires forall u :: u != x ==>
               FramesIn(s'.output, u) == FramesIn(t.session.output, u)
                   && FramesIn(s'.input, u) == FramesIn(t.session.input, u)
    ensures GoodBut(t.(session := s'), Some(x))
  {
    hide Inv, Story, About, AudioOf, FramesOf, FramesIn;
    var t' := t.(session := s');
    forall u ensures Told(t', u) && (u != x ==> Conserved(t', u)) {
      assert Told(t, u) && Conserved(t, u);
      assert StandingOf(s', u) == StandingOf(t.session, u);
    }
  }

  lemma PopInputStep(t: Trace)
    requires GoodBut(t, None) && t.session.input != []
    ensures var f := t.session.input[0].frame;
            var t' := t.(session := PopInput(t.session));
            GoodBut(t', Some(f.utterance)) && InHand(t', f)
  {
    PopInputKeepsInv(t.session);
    hide Inv, Story, About, AudioOf, FramesOf, FramesIn, Told;
    var (s, q, x) := (t.session, t.session.input[0], t.session.input[0].frame.utterance);
    forall u ensures u != x ==> FramesIn(PopInput(s).input, u) == FramesIn(s.input, u) {
      FramesInPop(s.input, u);
    }
    FramesInPop(s.input, x);
    OthersKept(t, PopInput(s), x);
    assert Conserved(t, x);
    assert FramesIn(s.output, x) + ([q.frame] + FramesIn(s.input[1..], x)) ==
           FramesIn(s.output, x) + [q.frame] + FramesIn(s.input[1..], x);
    hide GoodBut;
  }

  lemma PopOutputStep(t: Trace)
    requires GoodBut(t, None) && t.session.output != []
    ensures var f := t.session.output[0].frame;
            var t' := t.(session := PopOutput(t.session));
            && GoodBut(t', Some(f.utterance))
            && |AudioOf(t.events, f.utterance)| < |FramesOf(t.accepted, f.utterance)|
            && FramesOf(t.accepted, f.utterance)[|AudioOf(t.events, f.utterance)|..] ==
                 [f] + (FramesIn(t'.session.output, f.utterance) + FramesIn(t'.session.input, f.utterance))
  {
    PopOutputKeepsInv(t.session);
    hide Inv, Story, About, AudioOf, FramesOf, FramesIn, Told;
    var (s, x) := (t.session, t.session.output[0].frame.utterance);
    forall u ensures u != x ==> FramesIn(PopOutput(s).output, u) == FramesIn(s.output, u) {
      FramesInPop(s.output, u);
    }
    OthersKept(t, PopOutput(s), x);
    assert Conserved(t, x);
    hide GoodBut;
    NextToPlay(t, x);
  }

  /** The head of the output is the next frame of its utterance to be played. */
  lemma NextToPlay(t: Trace, x: Uuid)
    requires Conserved(t, x) && t.session.output != [] && x == t.session.output[0].frame.utterance
             && x in t.session.streams
    ensures |AudioOf(t.events, x)| < |FramesOf(t.accepted, x)|
    ensures FramesOf(t.accepted, x)[|AudioOf(t.events, x)|..] ==
            [t.session.output[0].frame] + (FramesIn(t.session.output[1..], x) + FramesIn(t.session.input, x))
  {
    hide AudioOf, FramesOf, FramesIn;
    FramesInPop(t.session.output, x);
    assert ([t.session.output[0].frame] + FramesIn(t.session.output[1..], x)) + FramesIn(t.session.input, x) ==
           [t.session.output[0].frame] + (FramesIn(t.session.output[1..], x) + FramesIn(t.session.input, x));
  }

  /** The processed frame joins the output queue. */
  lemma PushOutputStep(t: Trace, f: Frame, s': Session)
    requires GoodBut(t, Some(f.utterance)) && InHand(t, f) && Inv(s') && |f.pcm| % 2 == 0
    requires s' == t.session.(output := t.session.output + [QueuedOutput(f, ReverseSamples(f.pcm))],
                              outputMs := s'.outputMs, processed := s'.processed)
    ensures GoodBut(t.(session := s'), None)
  {
    hide Inv, Story, About, AudioOf, FramesOf, FramesIn, ReverseSamples;
    forall u ensures Told(t.(session := s'), u) && Conserved(t.(session := s'), u) {
      FramesInAppend(t.session.output, QueuedOutput(f, ReverseSamples(f.pcm)), u);
      assert Told(t, u);
      assert u != f.utterance ==> Conserved(t, u);
      assert StandingOf(s', u) == StandingOf(t.session, u);
    }
  }

  /** The drained frame is played: its audio carries the next number. */
  lemma AudioStep(t: Trace, q: Queued, e: Event, s': Session)
    requires q.QueuedOutput? && GoodBut(t, Some(q.frame.utterance)) && Inv(s')
    requires q.frame.utterance in t.session.streams
    requires Plays(t.session.request.mode, e, q.frame)
    requires var (audio, frames) := (AudioOf(t.events, q.frame.utterance), FramesOf(t.accepted, q.frame.utterance));
             && |audio| < |frames|
             && frames[|audio|..] ==
                  [q.frame] + (FramesIn(t.session.output, q.frame.utterance)
                               + FramesIn(t.session.input, q.frame.utterance))
    requires e.AudioDelta? && e.utterance == q.frame.utterance
    requires LastOf(e.audioSequence) == Lookup(t.session.lastAudio, q.frame.utterance)
    requires e.header.sequence == s'.eventSequence == t.session.eventSequence + 1
    requires s' == t.session.(eventSequence := s'.eventSequence, nextAudio := s'.nextAudio,
                              lastAudio := t.session.lastAudio[q.frame.utterance := e.audioSequence])
    ensures GoodBut(Say(t, s', e), None)
  {
    hide Inv, Story, About, AudioOf, FramesOf, FramesIn, ReverseSamples, Numbered;
    NumberedSay(t, s', e);
    forall u ensures Told(Say(t, s', e), u) && Conserved(Say(t, s', e), u) {
      Snoc(t.events, e, u);
      assert Told(t, u);
      if u == q.frame.utterance {
        var (audio, frames) := (AudioOf(t.events, u), FramesOf(t.accepted, u));
        StoryOpen(About(t.events, u), audio, frames, StandingOf(t.session, u));
        assert frames[|audio|] == frames[|audio|..][0] == q.frame;
        StoryAudio(About(t.events, u), audio, frames, StandingOf(t.session, u), e);
        assert StandingOf(s', u) == StandingOf(t.session, u).(lastAudio := Some(|audio|));
        assert frames[|audio| + 1..] == frames[|audio|..][1..];
      } else {
        assert Conserved(t, u);
        assert StandingOf(s', u) == StandingOf(t.session, u);
      }
    }
  }

  lemma StoryOpen(about: seq<Event>, audio: seq<Event>, frames: seq<Frame>, at: Standing)
    requires Story(about, audio, frames, at) && at.open
    ensures at.lastAudio == LastOf(|audio|) && !at.terminal
  {}

  lemma FramesInAbsent(q: seq<Queued>, u: Uuid)
    requires forall x <- q :: x.frame.utterance != u
    ensures FramesIn(q, u) == []
  {}

  /** A frame is admitted: its utterance is open from now on. */
  lemma AdmitStep(t: Trace, f: Frame)
    requires GoodBut(t, None) && !t.session.closed && FrameError(t.session, f).None?
    requires f.utterance in t.session.streams || |t.session.streams| < MAX_ACTIVE_UTTERANCES
    ensures GoodBut(t.(session := Admitted(t.session, f)), None)
  {
    var (s, s') := (t.session, Admitted(t.session, f));
    AdmittedKeepsInv(s, f);
    if f.utterance !in s.streams {
      assert f.utterance !in s.lastAudio;
      FramesInAbsent(s.input, f.utterance);
      FramesInAbsent(s.output, f.utterance);
    }
    forall u ensures Told(t.(session := s'), u) && Conserved(t.(session := s'), u) {
      hide Inv, About, AudioOf, FramesOf, FramesIn, ReverseSamples, Numbered;
      assert Told(t, u) && Conserved(t, u);
    }
  }

  /** An admitted frame is queued. */
  lemma QueueStep(t: Trace, f: Frame, now: nat, s': Session)
    requires GoodBut(t, None) && Inv(s') && f.utterance in t.session.streams && !t.session.closed
    requires s' == t.session.(input := t.session.input + [QueuedInput(f, now)], inputMs := s'.inputMs,
             ended := s'.ended)
    ensures GoodBut(t.(session := s', accepted := t.accepted + [f]), None)
  {
    hide Inv, Story, About, AudioOf, FramesOf, FramesIn, ReverseSamples;
    var t' := t.(session := s', accepted := t.accepted + [f]);
    forall u ensures Told(t', u) && Conserved(t', u) {
      FramesOfSnoc(t.accepted, f, u);
      FramesInAppend(t.session.input, QueuedInput(f, now), u);
      assert Told(t, u) && Conserved(t, u);
      assert StandingOf(s', u) == StandingOf(t.session, u);
      if u == f.utterance {
        var (audio, frames) := (AudioOf(t.events, u), FramesOf(t.accepted, u));
        StoryOpen(About(t.events, u), audio, frames, StandingOf(s', u));
        StoryFrame(About(t.events, u), audio, frames, StandingOf(s', u), f, StandingOf(s', u));
        assert (frames + [f])[|audio|..] == frames[|audio|..] + [f];
      }
    }
  }

  lemma FramesOfSnoc(fs: seq<Frame>, f: Frame, u: Uuid)
    ensures FramesOf(fs + [f], u) == if f.utterance == u then FramesOf(fs, u) + [f] else FramesOf(fs, u)
  {
    assert (fs + [f])[..|fs|] == fs;
  }

  // ---- Calls ----

  /** The run after a call that returned. */
  ghost function After(t: Trace, r: Reply): Trace
    requires r.answer.Events?
  {
    t.(session := r.session, events := t.events + r.answer.events)
  }

  lemma TerminateCall(t: Trace, stream: Uuid, x: Uuid, outcome: Outcome)
    requires GoodBut(t, Some(x)) && x in t.session.streams
    requires Terminate(t.session, stream, x, outcome).answer.Events?
    ensures GoodBut(After(t, Terminate(t.session, stream, x, outcome)), None)
  {
    hide GoodBut;
    TerminateStep(t, stream, x, outcome);
    var r := Terminate(t.session, stream, x, outcome);
    assert After(t, r) == Say(t, r.session, FinalOf(t.session, stream, x, outcome));
  }

  lemma FailCall(t: Trace, f: Frame, code: ErrorCode)
    requires GoodBut(t, Some(f.utterance)) && f.utterance in t.session.streams
    requires FailUtterance(t.session, f, code).answer.Events?
    ensures GoodBut(After(t, FailUtterance(t.session, f, code)), None)
  {
    hide GoodBut, Terminate;
    var e := Error(NextHeader(t.session), Some(f.stream), Some(f.utterance), code);
    RemarkStep(t, Some(f.utterance), e);
    var t1 := Say(t, t.session.(eventSequence := t.session.eventSequence + 1), e);
    TerminateCall(t1, f.stream, f.utterance, Dropped);
    var es := Terminate(t1.session, f.stream, f.utterance, Dropped).answer.events;
    assert (t.events + [e]) + es == t.events + ([e] + es);
  }

  lemma GoodLoosens(t: Trace, x: Uuid)
    requires GoodBut(t, None)
    ensures GoodBut(t, Some(x))
  {}

  lemma EnqueueCall(t: Trace, f: Frame, now: nat)
    requires GoodBut(t, None)
    ensures var r := EnqueueFrame(t.session, f, now);
            r.answer.Events? ==>
              if r.answer.events == [] then GoodBut(t.(session := r.session, accepted := t.accepted + [f]), None)
              else GoodBut(After(t, r), None)
  {
    hide GoodBut, Inv, Terminate, FailUtterance;
    var r := EnqueueFrame(t.session, f, now);
    if r.answer.Events? {
      GoodInv(t, None);
      EnqueueKeepsInv(t.session, f, now);
      AdmitStep(t, f);
      var t1 := t.(session := Admitted(t.session, f));
      GoodLoosens(t1, f.utterance);
      if Expired(t.session.request.mode, f.captureNs, now) {
        TerminateSays(t1.session, f.stream, f.utterance, Dropped);
        TerminateCall(t1, f.stream, f.utterance, Dropped);
      } else if t.session.inputMs + f.format.frameDurationMs > INPUT_LIMIT_MS {
        FailSays(t1.session, f, QueueOverflow);
        FailCall(t1, f, QueueOverflow);
      } else {
        QueueStep(t1, f, now, r.session);
      }
    }
  }

  lemma GoodInv(t: Trace, moving: Option<Uuid>)
    requires GoodBut(t, moving)
    ensures Inv(t.session)
  {}

  lemma TerminateSays(s: Session, stream: Uuid, u: Uuid, outcome: Outcome)
    ensures var r := Terminate(s, stream, u, outcome);
            r.answer.Events? ==> r.answer.events != [] && r.session.request == s.request
  {}

  lemma FailSays(s: Session, f: Frame, code: ErrorCode)
    ensures var r := FailUtterance(s, f, code); r.answer.Events? ==> r.answer.events != []
  {}

  lemma ProcessCall(inj: Injection, t: Trace, now: nat)
    requires GoodBut(t, None) && Inv(t.session)
    ensures var r := ProcessNext(inj, t.session, now); r.answer.Events? ==> GoodBut(After(t, r), None)
  {
    hide GoodBut, Terminate, FailUtterance, InHand, OutputOk, IdsOk, NumbersOk, PcmFormat.FrameBytes, Openable;
    var (s, r) := (t.session, ProcessNext(inj, t.session, now));
    assert t.events + [] == t.events;
    if r.answer.Events? && s.input != [] && (Expired(s.request.mode, s.input[0].frame.captureNs, now)
        || now >= ReadyNs(inj, s.input[0])) {
      var f := s.input[0].frame;
      PopInputStep(t);
      var t1 := t.(session := PopInput(s));
      if Expired(s.request.mode, f.captureNs, now) {
        TerminateCall(t1, f.stream, f.utterance, Dropped);
      } else {
        ProcessedStep(t1, f);
        var t2 := t.(session := PopInput(s).(processed := s.processed + 1));
        if inj.failAfterFrames.Some? && s.processed >= inj.failAfterFrames.value {
          FailCall(t2, f, ProviderUnavailable);
        } else if s.outputMs + f.format.frameDurationMs > OUTPUT_LIMIT_MS {
          FailCall(t2, f, QueueOverflow);
        } else {
          ProcessKeepsInv(inj, s, now);
          ProcessTextCall(t2, f, s.debugText, r);
        }
      }
    }
  }

  lemma ProcessedStep(t: Trace, f: Frame)
    requires GoodBut(t, Some(f.utterance)) && InHand(t, f)
    ensures var t' := t.(session := t.session.(processed := t.session.processed + 1));
            GoodBut(t', Some(f.utterance)) && InHand(t', f)
  {
    hide Inv, Story, About, AudioOf, FramesOf, FramesIn;
    var t' := t.(session := t.session.(processed := t.session.processed + 1));
    SameInv(t.session, t'.session);
    forall u ensures Told(t', u) && (u != f.utterance ==> Conserved(t', u)) {
      assert Told(t, u);
      assert u != f.utterance ==> Conserved(t, u);
      assert StandingOf(t'.session, u) == StandingOf(t.session, u);
    }
  }

  /** A processed frame is moved to the output, with or without text about it. */
  lemma ProcessTextCall(t: Trace, f: Frame, text: bool, r: Reply)
    requires GoodBut(t, Some(f.utterance)) && InHand(t, f) && |f.pcm| % 2 == 0 && f.utterance in t.session.streams
    requires Inv(r.session)
    requires var s1 := t.session.(output := t.session.output + [QueuedOutput(f, ReverseSamples(f.pcm))],
                                  outputMs := r.session.outputMs);
             if text then r == Reply(s1.(eventSequence := s1.eventSequence + 2), Events(TextEvents(t.session, f)))
             else r == Reply(s1, Events([]))
    ensures GoodBut(After(t, r), None)
  {
    hide GoodBut, InHand, Inv;
    var s1 := r.session.(eventSequence := t.session.eventSequence);
    SameInv(r.session, s1);
    PushOutputStep(t, f, s1);
    if text {
      var es := TextEvents(t.session, f);
      var t1 := t.(session := s1);
      RemarkStep(t1, None, es[0]);
      RemarkStep(Say(t1, s1.(eventSequence := s1.eventSequence + 1), es[0]), None, es[1]);
      assert (t.events + [es[0]]) + [es[1]] == t.events + es;
    } else {
      assert t.events + [] == t.events;
    }
  }

  lemma HeadOfOutput(s: Session)
    requires Inv(s) && s.output != []
    ensures var (q, u) := (s.output[0], s.output[0].frame.utterance);
            && q.QueuedOutput? && u in s.streams && |q.frame.pcm| % 2 == 0 && q.pcm == ReverseSamples(q.frame.pcm)
            && LastOf(if u in s.nextAudio then s.nextAudio[u] else 0) == Lookup(s.lastAudio, u)
  {
    hide InputOk, IdsOk, Openable, PcmFormat.FrameBytes, ReverseSamples;
    assert s.output[0] in s.output;
  }

  /** The audio of a drained frame, and the remark about it. */
  lemma DrainAudioCall(t: Trace, now: nat)
    requires GoodBut(t, None) && t.session.output != [] && Inv(t.session)
    requires now - t.session.output[0].frame.captureNs <= OldestNs(t.session.request.mode)
    ensures var (s1, q) := (PopOutput(t.session), t.session.output[0]);
            && q.QueuedOutput?
            && var es := t.events + AudioEvents(s1, q, now);
               GoodBut(t.(session := AudioEmitted(s1, q.frame.utterance), events := es), None)
  {
    hide GoodBut, Inv, FramesIn, About, AudioOf, FramesOf, Story, ReverseSamples;
    var (s, q) := (t.session, t.session.output[0]);
    var f := q.frame;
    HeadOfOutput(s);
    PopOutputStep(t);
    var t1 := t.(session := PopOutput(s));
    var es := AudioEvents(t1.session, q, now);
    var s2 := AudioEmitted(t1.session, f.utterance);
    var t2 := Say(t1, s2.(eventSequence := s.eventSequence + 1), es[0]);
    DrainedKeepsInv(s, s2.(eventSequence := s.eventSequence + 1));
    assert Plays(s.request.mode, es[0], f);
    AudioStep(t1, q, es[0], s2.(eventSequence := s.eventSequence + 1));
    RemarkStep(t2, None, es[1]);
    assert Say(t2, s2, es[1]).events == t.events + es;
  }

  lemma NotTooOld(mode: Mode, captureNs: nat, now: nat)
    ensures Expired(mode, captureNs, now) <==> now - captureNs > OldestNs(mode)
  {}

  /** One turn of the drain loop. */
  lemma DrainOneCall(t: Trace, now: nat)
    requires GoodBut(t, None) && t.session.output != [] && Inv(t.session)
    ensures var r := DrainOne(PopOutput(t.session), t.session.output[0], now);
            r.answer.Events? ==> GoodBut(After(t, r), None)
  {
    HeadOfOutput(t.session);
    hide GoodBut, Terminate, Inv, Expired, ReverseSamples;
    var (s, q) := (t.session, t.session.output[0]);
    if Expired(s.request.mode, q.frame.captureNs, now) {
      PopOutputStep(t);
      if Terminate(PopOutput(s), q.frame.stream, q.frame.utterance, Dropped).answer.Events? {
        TerminateCall(t.(session := PopOutput(s)), q.frame.stream, q.frame.utterance, Dropped);
      }
    } else {
      NotTooOld(s.request.mode, q.frame.captureNs, now);
      DrainAudioCall(t, now);
      var (s2, es) := (AudioEmitted(PopOutput(s), q.frame.utterance), AudioEvents(PopOutput(s), q, now));
      if q.frame.endOfUtterance {
        DrainFinalCall(t, s2, es, q.frame.stream, q.frame.utterance);
      }
    }
  }

  /** The final after the last audio. */
  lemma DrainFinalCall(t: Trace, s2: Session, es: seq<Event>, stream: Uuid, u: Uuid)
    requires GoodBut(t.(session := s2, events := t.events + es), None) && u in s2.streams
    ensures var r := Terminate(s2, stream, u, Completed);
            r.answer.Events? ==> GoodBut(t.(session := r.session, events := t.events + (es + r.answer.events)), None)
  {
    hide GoodBut, Terminate;
    var r := Terminate(s2, stream, u, Completed);
    if r.answer.Events? {
      var t3 := t.(session := s2, events := t.events + es);
      GoodLoosens(t3, u);
      TerminateCall(t3, stream, u, Completed);
      assert (t.events + es) + r.answer.events == t.events + (es + r.answer.events);
    }
  }

  lemma DrainedKeepsInv(s: Session, s': Session)
    requires Inv(s) && s.output != []
    requires s' == AudioEmitted(PopOutput(s), s.output[0].frame.utterance).(eventSequence := s'.eventSequence)
    ensures Inv(s')
  {
    hide PcmFormat.FrameBytes, Openable, ReverseSamples;
  }

  lemma DrainCall(t: Trace, now: nat)
    requires GoodBut(t, None) && Inv(t.session)
    ensures var r := DrainFrom(t.session, now); r.answer.Events? ==> GoodBut(After(t, r), None)
    decreases |t.session.output|
  {
    hide GoodBut, DrainOne, InputOk, IdsOk, NumbersOk, PcmFormat.FrameBytes, Openable;
    var r := DrainFrom(t.session, now);
    assert t.events + [] == t.events;
    if r.answer.Events? && t.session.output != [] {
      DrainOneCall(t, now);
      DrainOneKeepsInv(t.session, now);
      var one := DrainOne(PopOutput(t.session), t.session.output[0], now);
      DrainCall(After(t, one), now);
      var more := DrainFrom(one.session, now).answer.events;
      assert (t.events + one.answer.events) + more == t.events + (one.answer.events + more);
    }
  }

  lemma CancelCall(t: Trace, d: Direction, x: Uuid)
    requires GoodBut(t, None)
    ensures var r := CancelUtterance(t.session, d, x); r.answer.Events? ==> GoodBut(After(t, r), None)
  {
    hide GoodBut, Terminate;
    var r := CancelUtterance(t.session, d, x);
    if r.answer.Events? {
      PurgeStep(t, x);
      TerminateCall(t.(session := PurgeQueues(t.session, x)), t.session.streams[x], x, Cancelled);
    }
  }

  lemma PurgeStep(t: Trace, x: Uuid)
    requires GoodBut(t, None)
    ensures GoodBut(t.(session := PurgeQueues(t.session, x)), Some(x))
  {
    hide Inv, Story, About, AudioOf, FramesOf, FramesIn, Without, MsOf;
    ForgetKeepsInv(t.session, x);
    var t' := t.(session := PurgeQueues(t.session, x));
    forall u ensures Told(t', u) && (u != x ==> Conserved(t', u)) {
      FramesInWithout(t.session.input, x, u);
      FramesInWithout(t.session.output, x, u);
      assert Told(t, u) && Conserved(t, u);
      assert StandingOf(t'.session, u) == StandingOf(t.session, u);
    }
  }

  lemma CloseCall(t: Trace)
    requires GoodBut(t, None)
    ensures var r := CloseSession(t.session); r.answer.Events? ==> GoodBut(After(t, r), None)
  {
    var r := CloseSession(t.session);
    if r.answer.Events? {
      var e := SessionClosed(NextHeader(t.session));
      assert After(t, r) == Say(t, r.session, e);
      NumberedSay(t, r.session, e);
      forall u ensures Told(After(t, r), u) {
        hide Inv, About, AudioOf, FramesOf, FramesIn, Numbered;
        Snoc(t.events, e, u);
        assert Told(t, u);
      }
    }
  }

  lemma DebugCall(t: Trace, enabled: bool)
    requires GoodBut(t, None)
    ensures var r := UpdateDebugText(t.session, enabled); r.answer.Events? ==> GoodBut(After(t, r), None)
  {
    hide Inv, Story, About, AudioOf, FramesOf, FramesIn;
    var t' := t.(session := t.session.(debugText := enabled));
    SameInv(t.session, t'.session);
    assert t.events + [] == t.events;
    forall u ensures Told(t', u) && Conserved(t', u) {
      assert Told(t, u) && Conserved(t, u);
      assert StandingOf(t'.session, u) == StandingOf(t.session, u);
    }
  }

  // ---- Every run ----

  /** What outlives even a raised call: the events returned so far. */
  ghost predicate Kept(t: Trace, u: Uuid) {
    && AudioIsPrefix(t.session.request.mode, AudioOf(t.events, u), FramesOf(t.accepted, u))
    && FinalEnds(About(t.events, u), AudioOf(t.events, u))
  }

  ghost predicate Good(t: Trace) {
    if t.raised then Inv(t.session) && InSequence(t.events) && forall u :: Kept(t, u) else GoodBut(t, None)
  }

  lemma ExtendKeepsGood(inj: Injection, t: Trace, op: Op)
    requires Good(t) && Inv(t.session)
    ensures Good(Extend(inj, t, op))
  {
    if !t.raised {
      var r := Apply(inj, t.session, op);
      ApplyKeepsInv(inj, t.session, op);
      if r.answer.Raised? {
        RequestStays(inj, t.session, op);
        hide Apply;
        KeptFromGood(t, r.session);
      } else {
        hide GoodBut, Inv, EnqueueFrame, ProcessNext, DrainFrom, CancelUtterance;
        assert t.events + [] == t.events;
        match op
        case Enqueue(f, now) => EnqueueCall(t, f, now);
        case Process(now) => ProcessCall(inj, t, now);
        case Drain(now) => DrainCall(t, now);
        case Cancel(d, x) => CancelCall(t, d, x);
        case Close => CloseCall(t);
        case SetDebug(enabled) => DebugCall(t, enabled);
        case AskHealth => RemarkStep(t, None, Health(NextHeader(t.session), Local, true));
      }
    }
  }

  /** What was agreed on opening, and what was last heard of the input, is as it was. */
  predicate Settled(s: Session, s': Session) {
    && s'.request == s.request && s'.debugText == s.debugText
    && s'.lastFrameSequence == s.lastFrameSequence && s'.streamId == s.streamId
  }

  lemma TerminateSettles(s: Session, stream: Uuid, u: Uuid, outcome: Outcome)
    ensures Settled(s, Terminate(s, stream, u, outcome).session)
  {
    hide Without, MsOf;
  }

  lemma FailSettles(s: Session, f: Frame, code: ErrorCode)
    ensures Settled(s, FailUtterance(s, f, code).session)
  {
    hide Terminate;
    TerminateSettles(s.(eventSequence := s.eventSequence + 1), f.stream, f.utterance, Dropped);
  }

  lemma EnqueueSettles(s: Session, f: Frame, now: nat)
    ensures var r := EnqueueFrame(s, f, now);
            && r.session.request == s.request && r.session.debugText == s.debugText
            && (r.answer.Events? ==>
                  r.session.lastFrameSequence == Some(f.sequence) && r.session.streamId == Some(f.stream))
  {
    hide Terminate, FailUtterance, FrameError, Expired;
    TerminateSettles(Admitted(s, f), f.stream, f.utterance, Dropped);
    FailSettles(Admitted(s, f), f, QueueOverflow);
  }

  lemma ProcessSettles(inj: Injection, s: Session, now: nat)
    requires forall q <- s.input :: q.QueuedInput? && |q.frame.pcm| % 2 == 0
    ensures Settled(s, ProcessNext(inj, s, now).session)
  {
    hide Terminate, FailUtterance, Expired, ReverseSamples;
    if s.input != [] {
      var (f, s1) := (s.input[0].frame, PopInput(s));
      TerminateSettles(s1, f.stream, f.utterance, Dropped);
      FailSettles(s1.(processed := s.processed + 1), f, ProviderUnavailable);
      FailSettles(s1.(processed := s.processed + 1), f, QueueOverflow);
    }
  }

  /** Every queue holds its own kind of entries. */
  lemma QueueKinds(s: Session)
    requires Inv(s)
    ensures forall q <- s.output :: q.QueuedOutput?
    ensures forall q <- s.input :: q.QueuedInput? && |q.frame.pcm| % 2 == 0
  {
    hide IdsOk, NumbersOk, Openable, PcmFormat.FrameBytes, ReverseSamples;
  }

  /** What the session was opened with stays. */
  lemma RequestStays(inj: Injection, s: Session, op: Op)
    requires Inv(s)
    ensures Apply(inj, s, op).session.request == s.request
    ensures !op.Enqueue? && !op.SetDebug? ==> Settled(s, Apply(inj, s, op).session)
  {
    QueueKinds(s);
    hide Inv, EnqueueFrame, ProcessNext, DrainFrom, Terminate, PurgeQueues;
    match op
    case Enqueue(f, now) => EnqueueSettles(s, f, now);
    case Process(now) => ProcessSettles(inj, s, now);
    case Drain(now) => DrainSettles(s, now);
    case Cancel(d, u) => CancelSettles(s, d, u);
    case _ =>
  }

  lemma CancelSettles(s: Session, d: Direction, u: Uuid)
    ensures Settled(s, CancelUtterance(s, d, u).session)
  {
    hide Terminate, Without, MsOf;
    if u in s.streams {
      TerminateSettles(PurgeQueues(s, u), s.streams[u], u, Cancelled);
    }
  }

  lemma {:induction false} DrainSettles(s: Session, now: nat)
    requires forall q <- s.output :: q.QueuedOutput?
    ensures Settled(s, DrainFrom(s, now).session)
    decreases |s.output|
  {
    if s.output != [] {
      var r := DrainOne(PopOutput(s), s.output[0], now);
      DrainOneSettles(PopOutput(s), s.output[0], now);
      hide DrainOne;
      if r.answer.Events? {
        DrainSettles(r.session, now);
      }
    }
  }

  lemma DrainOneSettles(s: Session, q: Queued, now: nat)
    requires q.QueuedOutput?
    ensures Settled(s, DrainOne(s, q, now).session)
  {
    hide Terminate, Expired;
    TerminateSettles(s, q.frame.stream, q.frame.utterance, Dropped);
    TerminateSettles(AudioEmitted(s, q.frame.utterance), q.frame.stream, q.frame.utterance, Completed);
  }

  lemma {:induction false} RunRequest(inj: Injection, request: OpenRequest, ops: seq<Op>)
    requires Openable(request)
    ensures Run(inj, request, ops).session.request == request
  {
    if ops != [] {
      var before := ops[..|ops| - 1];
      RunRequest(inj, request, before);
      RequestStays(inj, Run(inj, request, before).session, ops[|ops| - 1]);
      hide Apply;
    }
  }

  lemma KeptFromGood(t: Trace, s: Session)
    requires GoodBut(t, None) && Inv(s) && s.request == t.session.request
    ensures Good(t.(session := s, raised := true))
  {
    forall u ensures Kept(t.(session := s, raised := true), u) {
      hide Inv, About, AudioOf, FramesOf, FramesIn, Numbered;
      assert Told(t, u);
    }
  }

  lemma StartGood(request: OpenRequest)
    requires Openable(request)
    ensures Good(Start(request))
  {
    hide PcmFormat.FrameBytes, PcmFormat.Supported;
    forall u ensures Told(Start(request), u) {
      assert [OpenedEvent(request)][..0] == [];
      assert About([], u) == [] && AudioOf([], u) == [];
      assert About([OpenedEvent(request)], u) == [] == AudioOf([OpenedEvent(request)], u);
      hide About, AudioOf, FramesIn;
    }
  }

  lemma {:induction false} RunGood(inj: Injection, request: OpenRequest, ops: seq<Op>)
    requires Openable(request)
    ensures Good(Run(inj, request, ops))
  {
    if ops == [] {
      StartGood(request);
    } else {
      RunGood(inj, request, ops[..|ops| - 1]);
      ExtendKeepsGood(inj, Run(inj, request, ops[..|ops| - 1]), ops[|ops| - 1]);
    }
  }

  // ---- The theorems, for every run ----

  /** Buffered milliseconds are the sums over the queues, within their limits, even after
      a raise; and no queued frame belongs to an utterance that has ended. */
  lemma QueuesAccounted(inj: Injection, request: OpenRequest, ops: seq<Op>)
    requires Openable(request)
    ensures var s := Run(inj, request, ops).session;
            && s.inputMs == Ms(s.input) <= 800
            && s.outputMs == Ms(s.output) <= 1200
            && forall q <- s.input + s.output :: q.frame.utterance !in s.terminal && q.frame.utterance in s.streams
  {
    var s := Run(inj, request, ops).session;
    hide PcmFormat.FrameBytes, Run;
    assert Inv(s);
  }

  /** The events of calls that returned are numbered 1, 2, 3, ... without a gap, even when the
      last call raised. */
  lemma EventsConsecutive(inj: Injection, request: OpenRequest, ops: seq<Op>)
    requires Openable(request)
    ensures InSequence(Run(inj, request, ops).events)
  {
    hide Run, Inv;
    RunGood(inj, request, ops);
  }

  /** The audio of an utterance is numbered 0, 1, 2, ... and is, in that order, the sample
      reversal of the first frames accepted for it, each played while not too old. */
  lemma AudioInCaptureOrder(inj: Injection, request: OpenRequest, ops: seq<Op>, u: Uuid)
    requires Openable(request)
    ensures var t := Run(inj, request, ops);
            var (audio, frames) := (AudioOf(t.events, u), FramesOf(t.accepted, u));
            && |audio| <= |frames|
            && forall i :: 0 <= i < |audio| ==>
                 && audio[i].audioSequence == i
                 && audio[i].stream == frames[i].stream && audio[i].format == frames[i].format
                 && |frames[i].pcm| % 2 == 0 && audio[i].pcm == ReverseSamples(frames[i].pcm)
                 && audio[i].providerNs - frames[i].captureNs <= OldestNs(request.mode)
  {
    hide Run, Inv, About, AudioOf, FramesOf, ReverseSamples;
    RunTold(inj, request, ops, u);
    RunRequest(inj, request, ops);
  }

  /** An utterance has at most one final; it is its last event, and names the last audio
      emitted, or none when there was none. */
  lemma OneFinalLast(inj: Injection, request: OpenRequest, ops: seq<Op>, u: Uuid, i: nat)
    requires Openable(request)
    requires i < |About(Run(inj, request, ops).events, u)| && About(Run(inj, request, ops).events, u)[i].UtteranceFinal?
    ensures var t := Run(inj, request, ops);
            && i == |About(t.events, u)| - 1
            && About(t.events, u)[i].finalAudio == LastOf(|AudioOf(t.events, u)|)
  {
    RunTold(inj, request, ops, u);
  }

  lemma RunTold(inj: Injection, request: OpenRequest, ops: seq<Op>, u: Uuid)
    requires Openable(request)
    ensures Kept(Run(inj, request, ops), u)
    ensures !Run(inj, request, ops).raised ==> Told(Run(inj, request, ops), u) && Conserved(Run(inj, request, ops), u)
  {
    hide Run, Inv, About, AudioOf, FramesOf, FramesIn, Numbered;
    RunGood(inj, request, ops);
    if !Run(inj, request, ops).raised {
      assert Told(Run(inj, request, ops), u);
    }
  }

  /** Conservation: every frame an open utterance was given is either already audio or
      still queued, output before input, in the order it was accepted. */
  lemma NothingLost(inj: Injection, request: OpenRequest, ops: seq<Op>, u: Uuid)
    requires Openable(request) && !Run(inj, request, ops).raised && u in Run(inj, request, ops).session.streams
    ensures var t := Run(inj, request, ops);
            && |AudioOf(t.events, u)| <= |FramesOf(t.accepted, u)|
            && FramesOf(t.accepted, u)[|AudioOf(t.events, u)|..] ==
                 FramesIn(t.session.output, u) + FramesIn(t.session.input, u)
  {
    RunTold(inj, request, ops, u);
  }

  // ---- Waking up ----

  /** The moment the head of the input queue becomes ready or too old. */
  function WakeupNs(inj: Injection, s: Session): nat
    requires s.input != [] && s.input[0].QueuedInput?
  {
    var ready := ReadyNs(inj, s.input[0]);
    var expiry := s.input[0].frame.captureNs + MaxAgeNs(s.request.mode) + 1;
    if ready < expiry then ready else expiry
  }

  function NextWakeupMs(inj: Injection, s: Session, now: nat): Option<nat>
    requires forall q <- s.input :: q.QueuedInput?
  {
    if s.input == [] then None
    else
      var remaining := if WakeupNs(inj, s) < now then 0 else WakeupNs(inj, s) - now;
      Some((remaining + NS_PER_MS - 1) / NS_PER_MS)
  }

  /** After sleeping as long as asked, at least one millisecond, processing takes the head
      off the input queue: every turn of the transport's pending loop makes it shorter. */
  lemma WakeupMakesProgress(inj: Injection, s: Session, now: nat, later: nat)
    requires Inv(s) && !s.closed && s.input != []
    requires var asked := NextWakeupMs(inj, s, now).value; later >= now + 1_000_000 * if asked < 1 then 1 else asked
    ensures |ProcessNext(inj, s, later).session.input| < |s.input|
  {
    hide PcmFormat.FrameBytes, OutputOk, IdsOk, NumbersOk, ReverseSamples;
    assert later >= WakeupNs(inj, s);
  }

  /** And a millisecond less would have been in vain: nothing can be done with the head yet. */
  lemma WakeupNotLate(inj: Injection, s: Session, now: nat, earlier: nat)
    requires Inv(s) && !s.closed && s.input != []
    requires var asked := NextWakeupMs(inj, s, now).value; asked > 0 && earlier <= now + 1_000_000 * (asked - 1)
    ensures ProcessNext(inj, s, earlier) == Reply(s, Events([]))
  {
    QueueKinds(s);
    hide Inv, Terminate, Processed;
    assert earlier < WakeupNs(inj, s);
  }
}
