/** The latency policy as the daemon keeps it: one object per direction, updated in place. */
module LatencyPolicy {
  import opened Wire
  import opened NearestRank
  import opened LatencyModel

  class DirectionPolicy {
    var state: PolicyState
    var samples: seq<TimedSample>
    var lastEvaluatedEnd: nat
    var breachWindows: nat
    var recoveryWindows: nat
    var consecutiveBreaches: nat
    var queueBreachStarted: Option<nat>
    var cooldownUntil: nat
    var lastUtteranceAt: Option<nat>
    var lastQueueAt: Option<nat>
    const direction: Direction

    function View(): Policy
      reads this
    {
      Policy(direction, state, samples, lastEvaluatedEnd, breachWindows, recoveryWindows, consecutiveBreaches,
             queueBreachStarted, cooldownUntil, lastUtteranceAt, lastQueueAt)
    }

    constructor (direction: Direction)
      ensures View() == Fresh(direction)
    {
      this.direction := direction;
      state := PolicyState(QualityFirst, 0, 0, 0, None);
      samples := [];
      lastEvaluatedEnd, breachWindows, recoveryWindows, consecutiveBreaches := 0, 0, 0, 0;
      queueBreachStarted, cooldownUntil, lastUtteranceAt, lastQueueAt := None, 0, None, None;
    }

    method Enter(at: nat, mode: Mode, reason: Reason) returns (t: Option<Transition>)
      modifies this
      ensures Reaction(View(), t) == Change(old(View()), at, mode, reason)
    {
      t := Some(Transition(direction, state.mode, mode, reason, at));
      state := state.(mode := mode, changed := Some((at, reason)));
      samples := [];
      breachWindows, recoveryWindows, consecutiveBreaches := 0, 0, 0;
      queueBreachStarted := None;
      cooldownUntil := CooldownFrom(at);
    }

    method Move(at: nat, reason: Reason, degrade: bool) returns (t: Option<Transition>)
      modifies this
      ensures Reaction(View(), t) ==
              ChangeTo(old(View()), at, if degrade then Degraded(old(state).mode)
                  else Recovered(old(state).mode), reason)
    {
      var next := if degrade then Degraded(state.mode) else Recovered(state.mode);
      if next.None? {
        return None;
      }
      t := Enter(at, next.value, reason);
    }

    method RecordUtterance(at: nat, sample: Sample) returns (t: Option<Transition>)
      modifies this
      ensures Reaction(View(), t) == LatencyModel.RecordUtterance(old(View()), at, sample)
    {
      if lastUtteranceAt.Some? && at <= lastUtteranceAt.value {
        return None;
      }
      lastUtteranceAt := Some(at);
      samples := samples + [TimedSample(at, sample)];
      if Degraded(state.mode).None? {
        consecutiveBreaches := 0;
        return None;
      }
      if sample.firstAudioMs > Limits(state.mode).0 {
        consecutiveBreaches := consecutiveBreaches + 1;
      } else {
        consecutiveBreaches := 0;
      }
      if consecutiveBreaches >= UTTERANCE_TRIPWIRE {
        t := Move(at, ConsecutiveUtterances, true);
        return t;
      }
      return None;
    }

    method ObserveQueueLag(at: nat, lag: Option<nat>) returns (t: Option<Transition>)
      modifies this
      ensures Reaction(View(), t) == LatencyModel.ObserveQueueLag(old(View()), at, lag)
    {
      if lastQueueAt.Some? && at <= lastQueueAt.value {
        return None;
      }
      lastQueueAt := Some(at);
      if Degraded(state.mode).None? || lag.None? || lag.value <= QUEUE_TRIPWIRE_MS {
        queueBreachStarted := None;
        return None;
      }
      if queueBreachStarted.None? {
        queueBreachStarted := Some(at);
      }
      if at >= queueBreachStarted.value && at - queueBreachStarted.value >= QUEUE_TRIPWIRE_DURATION_MS {
        t := Move(at, SustainedQueueLag, true);
        return t;
      }
      return None;
    }

    method EvaluateEpoch(end: nat) returns (t: Option<Transition>)
      modifies this
      ensures Reaction(View(), t) == LatencyModel.EvaluateEpoch(old(View()), end)
    {
      hide P95, Within, NotBefore, FirstAudios, LastAudios, QueueLags, LatencyModel.Judge;
      if end == 0 || end % EPOCH_MS != 0 || end <= lastEvaluatedEnd {
        return None;
      }
      lastEvaluatedEnd := end;
      var epoch := Within(samples, end - EPOCH_MS, end);
      samples := NotBefore(samples, end);
      if |epoch| < MINIMUM_SAMPLES {
        breachWindows, recoveryWindows := 0, 0;
        return None;
      }
      state := state.(p95FirstAudioMs := P95(FirstAudios(epoch)), p95LastAudioMs := P95(LastAudios(epoch)),
                      p95QueueLagMs := P95(QueueLags(epoch)));
      var (firstLimit, queueLimit) := Limits(state.mode);
      t := Judge(end, state.p95FirstAudioMs > firstLimit || state.p95QueueLagMs > queueLimit);
    }

    method Judge(end: nat, breached: bool) returns (t: Option<Transition>)
      modifies this
      ensures Reaction(View(), t) == LatencyModel.Judge(old(View()), end, breached)
    {
      if breached && Degraded(state.mode).Some? {
        breachWindows := breachWindows + 1;
        recoveryWindows := 0;
        if breachWindows >= DEGRADE_WINDOWS {
          t := Move(end, WindowBreach, true);
          return t;
        }
      } else if !breached && Recovered(state.mode).Some? {
        recoveryWindows := recoveryWindows + 1;
        breachWindows := 0;
        if recoveryWindows >= RECOVER_WINDOWS && end >= cooldownUntil {
          t := Move(end, StableRecovery, false);
          return t;
        }
      } else {
        breachWindows, recoveryWindows := 0, 0;
      }
      return None;
    }

    method ForceMode(at: nat, mode: Mode) returns (t: Option<Transition>)
      modifies this
      ensures Reaction(View(), t) == LatencyModel.ForceMode(old(View()), at, mode)
    {
      if state.mode == mode {
        return None;
      }
      t := Enter(at, mode, ManualPolicyChange);
    }
  }

  /** Both directions. A command to one never touches the other. */
  class DuplexLatencyPolicy {
    const microphone: DirectionPolicy
    const speaker: DirectionPolicy

    ghost predicate Valid() {
      microphone != speaker && microphone.direction.Microphone? && speaker.direction.Speaker?
    }

    constructor ()
      ensures Valid() && microphone.View() == Fresh(Microphone) && speaker.View() == Fresh(Speaker)
    {
      microphone := new DirectionPolicy(Microphone);
      speaker := new DirectionPolicy(Speaker);
    }

    function PolicyOf(direction: Direction): DirectionPolicy {
      if direction.Microphone? then microphone else speaker
    }

    function Other(direction: Direction): DirectionPolicy {
      if direction.Microphone? then speaker else microphone
    }

    method Handle(direction: Direction, c: Command) returns (t: Option<Transition>)
      requires Valid()
      modifies PolicyOf(direction)
      ensures Reaction(PolicyOf(direction).View(), t) == React(old(PolicyOf(direction).View()), c)
      ensures Other(direction).View() == old(Other(direction).View())
    {
      hide LatencyModel.RecordUtterance, LatencyModel.ObserveQueueLag, LatencyModel.EvaluateEpoch,
           LatencyModel.ForceMode;
      var p := PolicyOf(direction);
      match c
      case Record(at, sample) => t := p.RecordUtterance(at, sample);
      case Observe(at, lag) => t := p.ObserveQueueLag(at, lag);
      case Evaluate(end) => t := p.EvaluateEpoch(end);
      case Force(at, mode) => t := p.ForceMode(at, mode);
    }
  }
}
