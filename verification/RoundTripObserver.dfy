/** The round-trip session and its observer as the daemon keeps them. */
module RoundTripObserver {
  import opened Wire
  import P = ExactPcm
  import R = RoundTripModel
  import opened RoundTripModel

  class RoundTripSelfTest {
    var session: Option<Session>

    function View(): SelfTest
      reads this
    {
      SelfTest(session)
    }

    constructor ()
      ensures View() == SelfTest(None)
    {
      session := None;
    }

    method Start(p: Preconditions, at: nat, id: Uuid) returns (error: Option<RoundTripError>)
      modifies this
      ensures Done(View(), error) == R.Start(old(View()), p, at, id)
    {
      if session.Some? && !session.value.checkpoint.IsTerminal() { return Some(AlreadyRunning); }
      error := PreconditionError(p);
      if error.Some? { return; }
      session := Some(Session(id, at, WaitingForSpeech, 0, NO_LATENCY, None, None));
    }

    method Advance(id: Uuid, c: Checkpoint, latency: Latencies) returns (error: Option<RoundTripError>)
      modifies this
      ensures Done(View(), error) == R.Advance(old(View()), id, c, latency)
    {
      error := ActiveError(View(), id);
      if error.Some? { return; }
      var s := session.value;
      if s.checkpoint.Following() != Some(c) || (c.VirtualPeerReinjecting?
          && (latency.englishComplete.None? || !Proven(s))) {
        return Some(InvalidCheckpoint);
      }
      session := Some(s.(checkpoint := c, latency := Merge(s.latency, latency)));
    }

    method RecordRecursion(id: Uuid) returns (error: Option<RoundTripError>)
      modifies this
      ensures Done(View(), error) == R.RecordRecursion(old(View()), id)
    {
      if session.None? { return Some(NotRunning); }
      if session.value.id != id { return Some(SessionMismatch); }
      var n := session.value.recursions;
      session := Some(session.value.(recursions := if n < U32_MAX then n + 1 else n));
      return None;
    }

    method SetProof(id: Uuid, proof: P.Proof) returns (error: Option<RoundTripError>)
      modifies this
      ensures Done(View(), error) == R.SetProof(old(View()), id, proof)
    {
      error := ActiveError(View(), id);
      if error.Some? { return; }
      if !session.value.checkpoint.EnglishFirstAudio? || !proof.exact { return Some(ExactPcmMismatch); }
      session := Some(session.value.(exactPcm := Some(proof)));
    }

    method Stop(id: Uuid) returns (done: bool)
      modifies this
      ensures Tried(View(), done) == R.Stop(old(View()), id)
    {
      if ActiveError(View(), id).Some? { return false; }
      session := Some(session.value.(checkpoint := Stopped));
      return true;
    }

    method Fail(id: Uuid, error: RoundTripError) returns (done: bool)
      modifies this
      ensures Tried(View(), done) == R.Fail(old(View()), id, error)
    {
      if ActiveError(View(), id).Some? { return false; }
      session := Some(session.value.(checkpoint := Failed, error := Some(error)));
      return true;
    }

    method Expire(at: nat) returns (done: bool)
      modifies this
      ensures Tried(View(), done) == R.Expire(old(View()), at)
    {
      if session.None? || session.value.checkpoint.IsTerminal()
          || at < session.value.startedAt + MAX_SESSION_MS { return false; }
      session := Some(session.value.(checkpoint := Stopped, error := Some(Timeout)));
      return true;
    }
  }

  class ProgressObserver {
    const id: Uuid
    const progress: RoundTripSelfTest
    var checkpoint: Checkpoint
    var outgoing: Leg
    var incoming: Leg
    var incomingEnabled: bool
    var outgoingTerminal: bool
    var incomingTerminal: bool
    var audibleUntilNs: nat

    function View(): World
      reads this, progress
    {
      World(Observer(id, checkpoint, outgoing, incoming, incomingEnabled, outgoingTerminal, incomingTerminal,
          audibleUntilNs),
            progress.View())
    }

    constructor (id: Uuid, progress: RoundTripSelfTest)
      ensures this.progress == progress && View() == World(Watch(id), progress.View())
    {
      this.id, this.progress := id, progress;
      checkpoint, outgoing, incoming := WaitingForSpeech, NO_LEG, NO_LEG;
      incomingEnabled, outgoingTerminal, incomingTerminal, audibleUntilNs := false, false, false, 0;
    }

    method AdvanceLocked(c: Checkpoint, latency: Latencies) returns (ok: bool)
      modifies this, progress
      ensures View() == StepTo(old(View()), c, latency)
      ensures ok <==> R.Advance(old(progress.View()), id, c, latency).error.None?
    {
      hide R.Advance;
      AdvanceRefused(progress.View(), id, c, latency);
      var error := progress.Advance(id, c, latency);
      if error.Some? { return false; }
      checkpoint := c;
      return true;
    }

    /** Checkpoints are passed one after the other as long as what was seen allows it. */
    method DrainLocked(now: nat)
      modifies this, progress
      ensures View() == Drain(old(View()), now)
    {
      hide R.Advance;
      while true
        invariant Drain(View(), now) == Drain(old(View()), now)
        decreases 10 - Place(checkpoint)
      {
        var c := Allowed(View().observer);
        if c.None? { return; }
        FollowsOn(View().observer);
        var ok := AdvanceLocked(c.value, LatencyAt(View().observer, c.value, now));
        if !ok { return; }
      }
    }

    method FailLocked()
      modifies this, progress
      ensures View() == FailSession(old(View()))
    {
      var done := progress.Fail(id, RuntimeFailed);
      if done {
        checkpoint, outgoingTerminal := Failed, true;
      }
    }

    method NoticeOutgoing(n: Notice)
      modifies this, progress
      ensures View() == R.NoticeOutgoing(old(View()), n)
    {
      hide R.Advance, FailSession, Learn;
      if n.SpeechStarted? {
        if outgoing.utterance.None? {
          outgoing := outgoing.(utterance := Some(n.utterance), onsetNs := Some(n.captureNs));
          if checkpoint.WaitingForSpeech? {
            var _ := AdvanceLocked(OutgoingVad, NO_LATENCY);
          }
        } else {
          var _ := progress.RecordRecursion(id);
        }
      } else if outgoing.utterance == Some(n.utterance) {
        if n.TerminalOutcome? && !n.outcome.Completed? {
          FailLocked();
        } else if n.UtteranceTerminal? {
          outgoingTerminal := true;
        } else {
          outgoing := Learn(outgoing, n);
        }
      }
    }

    method NoticeIncoming(n: Notice)
      modifies this, progress
      ensures View() == R.NoticeIncoming(old(View()), n)
    {
      hide FailSession, Learn;
      if !incomingEnabled { return; }
      if n.SpeechStarted? {
        if incoming.utterance.None? {
          incoming := incoming.(utterance := Some(n.utterance), onsetNs := Some(n.captureNs));
        } else {
          var _ := progress.RecordRecursion(id);
        }
      } else if incoming.utterance == Some(n.utterance) {
        if n.TerminalOutcome? && !n.outcome.Completed? {
          FailLocked();
        } else if n.UtteranceTerminal? {
          incomingTerminal := true;
        } else {
          incoming := Learn(incoming, n);
          if n.AudioFrame? {
            audibleUntilNs := Audible(audibleUntilNs, n.observedNs);
          }
        }
      }
    }

    method Observe(n: Notice, now: nat)
      modifies this, progress
      ensures View() == R.Observe(old(View()), n, now)
    {
      hide R.NoticeOutgoing, R.NoticeIncoming, Drain;
      if n.direction.Microphone? {
        NoticeOutgoing(n);
      } else {
        NoticeIncoming(n);
      }
      DrainLocked(now);
    }

    method BeginIncoming()
      modifies this
      ensures View() == R.BeginIncoming(old(View()))
    {
      incomingEnabled := true;
    }

    method MarkReinjecting(englishCompleteMs: nat, now: nat) returns (ok: bool)
      modifies this, progress
      ensures Marked(View(), ok) == R.MarkReinjecting(old(View()), englishCompleteMs, now)
    {
      hide R.Advance, Drain;
      if !checkpoint.EnglishFirstAudio? { return false; }
      ok := AdvanceLocked(VirtualPeerReinjecting, NO_LATENCY.(englishComplete := Some(englishCompleteMs)));
      if ok {
        DrainLocked(now);
      }
    }

    method MarkCompleted() returns (ok: bool)
      modifies this, progress
      ensures Marked(View(), ok) == R.MarkCompleted(old(View()))
    {
      hide R.Advance;
      if !checkpoint.RussianFirstAudio? || !incomingTerminal { return false; }
      ok := AdvanceLocked(Checkpoint.Completed, NO_LATENCY);
    }
  }

  lemma AdvanceRefused(t: SelfTest, id: Uuid, c: Checkpoint, latency: Latencies)
    ensures R.Advance(t, id, c, latency).error.Some? ==> R.Advance(t, id, c, latency).test == t
  {}

  /** What is allowed next is always further along. */
  lemma FollowsOn(o: Observer)
    ensures Allowed(o).Some? ==> Allowed(o).value != o.checkpoint && Place(Allowed(o).value) > Place(o.checkpoint)
  {}
}
