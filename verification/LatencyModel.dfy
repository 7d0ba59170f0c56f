/** How one direction's translation mode follows its latency: degraded when windows of
    utterances, consecutive utterances or the playback queue are too slow, recovered after a
    long enough run of healthy windows. */
module LatencyModel {
  import opened Wire
  import W = WatchdogModel
  import opened NearestRank

  const EPOCH_MS: nat := 60_000
  const MINIMUM_SAMPLES: nat := 20
  const DEGRADE_WINDOWS: nat := 2
  const RECOVER_WINDOWS: nat := 5
  const COOLDOWN_MS: nat := 120_000
  const QUEUE_TRIPWIRE_MS: nat := 500
  const QUEUE_TRIPWIRE_DURATION_MS: nat := 2_000
  const UTTERANCE_TRIPWIRE: nat := 3

  datatype Sample = Sample(firstAudioMs: nat, lastAudioMs: nat, queueLagMs: nat)
  datatype TimedSample = TimedSample(at: nat, value: Sample)

  datatype Reason = WindowBreach | StableRecovery | ConsecutiveUtterances | SustainedQueueLag | ManualPolicyChange

  datatype Transition = Transition(direction: Direction, before: Mode, after: Mode, reason: Reason, at: nat)

  datatype PolicyState = PolicyState(
    mode: Mode,
    p95FirstAudioMs: nat,
    p95LastAudioMs: nat,
    p95QueueLagMs: nat,
    changed: Option<(nat, Reason)>)

  datatype Policy = Policy(
    direction: Direction,
    state: PolicyState,
    samples: seq<TimedSample>,
    lastEvaluatedEnd: nat,
    breachWindows: nat,
    recoveryWindows: nat,
    consecutiveBreaches: nat,
    queueBreachStarted: Option<nat>,
    cooldownUntil: nat,
    lastUtteranceAt: Option<nat>,
    lastQueueAt: Option<nat>)

  datatype Reaction = Reaction(policy: Policy, transition: Option<Transition>)

  function Fresh(direction: Direction): Policy {
    Policy(direction, PolicyState(QualityFirst, 0, 0, 0, None), [], 0, 0, 0, 0, None, 0, None, None)
  }

  function Limits(mode: Mode): (nat, nat) {
    match mode
    case QualityFirst => (3_000, 500)
    case Balanced => (2_000, 350)
    case StreamingFirst => (1_000, 250)
  }

  function Degraded(mode: Mode): Option<Mode> {
    match mode
    case QualityFirst => Some(Balanced)
    case Balanced => Some(StreamingFirst)
    case StreamingFirst => None
  }

  function Recovered(mode: Mode): Option<Mode> {
    match mode
    case QualityFirst => None
    case Balanced => Some(QualityFirst)
    case StreamingFirst => Some(Balanced)
  }

  function CooldownFrom(at: nat): nat {
    if at + COOLDOWN_MS <= W.U64_MAX then at + COOLDOWN_MS else W.U64_MAX
  }

  /** A change of mode, for whatever reason, starts everything over. */
  function Change(p: Policy, at: nat, mode: Mode, reason: Reason): Reaction {
    Reaction(p.(state := p.state.(mode := mode, changed := Some((at, reason))), samples := [], breachWindows := 0,
                recoveryWindows := 0, consecutiveBreaches := 0, queueBreachStarted := None,
                    cooldownUntil := CooldownFrom(at)),
             Some(Transition(p.direction, p.state.mode, mode, reason, at)))
  }

  function ChangeTo(p: Policy, at: nat, mode: Option<Mode>, reason: Reason): Reaction {
    if mode.Some? then Change(p, at, mode.value, reason) else Reaction(p, None)
  }

  predicate Stale(last: Option<nat>, at: nat) {
    last.Some? && at <= last.value
  }

  function RecordUtterance(p: Policy, at: nat, sample: Sample): Reaction {
    if Stale(p.lastUtteranceAt, at) then Reaction(p, None)
    else
      var p1 := p.(lastUtteranceAt := Some(at), samples := p.samples + [TimedSample(at, sample)]);
      if Degraded(p.state.mode).None? then Reaction(p1.(consecutiveBreaches := 0), None)
      else
        var n := if sample.firstAudioMs > Limits(p.state.mode).0 then p.consecutiveBreaches + 1 else 0;
        if n >= UTTERANCE_TRIPWIRE then ChangeTo(p1, at, Degraded(p.state.mode), ConsecutiveUtterances)
        else Reaction(p1.(consecutiveBreaches := n), None)
  }

  predicate QueueBreach(mode: Mode, lag: Option<nat>) {
    Degraded(mode).Some? && lag.Some? && lag.value > QUEUE_TRIPWIRE_MS
  }

  function ObserveQueueLag(p: Policy, at: nat, lag: Option<nat>): Reaction {
    if Stale(p.lastQueueAt, at) then Reaction(p, None)
    else
      var p1 := p.(lastQueueAt := Some(at));
      if !QueueBreach(p.state.mode, lag) then Reaction(p1.(queueBreachStarted := None), None)
      else
        var started := if p.queueBreachStarted.Some? then p.queueBreachStarted.value else at;
        if at >= started && at - started >= QUEUE_TRIPWIRE_DURATION_MS
        then ChangeTo(p1, at, Degraded(p.state.mode), SustainedQueueLag)
        else Reaction(p1.(queueBreachStarted := Some(started)), None)
  }

  /** The values stamped within the window, in the order they came. */
  function Within(samples: seq<TimedSample>, start: nat, end: nat): seq<Sample> {
    if samples == [] then []
    else
      var x := samples[|samples| - 1];
      Within(samples[..|samples| - 1], start, end) + if start <= x.at < end then [x.value] else []
  }

  function NotBefore(samples: seq<TimedSample>, end: nat): seq<TimedSample> {
    if samples == [] then []
    else
      var x := samples[|samples| - 1];
      NotBefore(samples[..|samples| - 1], end) + if x.at >= end then [x] else []
  }

  function FirstAudios(window: seq<Sample>): (r: seq<nat>)
    ensures |r| == |window|
  {
    seq(|window|, i requires 0 <= i < |window| => window[i].firstAudioMs)
  }

  function LastAudios(window: seq<Sample>): (r: seq<nat>)
    ensures |r| == |window|
  {
    seq(|window|, i requires 0 <= i < |window| => window[i].lastAudioMs)
  }

  function QueueLags(window: seq<Sample>): (r: seq<nat>)
    ensures |r| == |window|
  {
    seq(|window|, i requires 0 <= i < |window| => window[i].queueLagMs)
  }

  predicate Evaluable(p: Policy, end: nat) {
    end != 0 && end % EPOCH_MS == 0 && end > p.lastEvaluatedEnd
  }

  predicate Breached(mode: Mode, window: seq<Sample>)
    requires window != []
  {
    P95(FirstAudios(window)) > Limits(mode).0 || P95(QueueLags(window)) > Limits(mode).1
  }

  function EvaluateEpoch(p: Policy, end: nat): Reaction {
    if !Evaluable(p, end) then Reaction(p, None)
    else
      var window := Within(p.samples, end - EPOCH_MS, end);
      var p1 := p.(lastEvaluatedEnd := end, samples := NotBefore(p.samples, end));
      if |window| < MINIMUM_SAMPLES then Reaction(p1.(breachWindows := 0, recoveryWindows := 0), None)
      else Judge(p1.(state := p.state.(p95FirstAudioMs := P95(FirstAudios(window)),
          p95LastAudioMs := P95(LastAudios(window)),
                                       p95QueueLagMs := P95(QueueLags(window)))),
                 end, Breached(p.state.mode, window))
  }

  /** What a full window decides. */
  function Judge(p: Policy, end: nat, breached: bool): Reaction {
    var mode := p.state.mode;
    if breached && Degraded(mode).Some? then
      var p1 := p.(breachWindows := p.breachWindows + 1, recoveryWindows := 0);
      if p1.breachWindows >= DEGRADE_WINDOWS then ChangeTo(p1, end, Degraded(mode), WindowBreach)
          else Reaction(p1, None)
    else if !breached && Recovered(mode).Some? then
      var p1 := p.(recoveryWindows := p.recoveryWindows + 1, breachWindows := 0);
      if p1.recoveryWindows >= RECOVER_WINDOWS && end >= p.cooldownUntil
      then ChangeTo(p1, end, Recovered(mode), StableRecovery) else Reaction(p1, None)
    else Reaction(p.(breachWindows := 0, recoveryWindows := 0), None)
  }

  function ForceMode(p: Policy, at: nat, mode: Mode): Reaction {
    if p.state.mode == mode then Reaction(p, None) else Change(p, at, mode, ManualPolicyChange)
  }

  // ---- Both directions ----

  datatype Duplex = Duplex(microphone: Policy, speaker: Policy)

  datatype Command =
    | Record(at: nat, sample: Sample)
    | Observe(at: nat, lag: Option<nat>)
    | Evaluate(end: nat)
    | Force(at: nat, mode: Mode)

  function React(p: Policy, c: Command): Reaction {
    match c
    case Record(at, sample) => RecordUtterance(p, at, sample)
    case Observe(at, lag) => ObserveQueueLag(p, at, lag)
    case Evaluate(end) => EvaluateEpoch(p, end)
    case Force(at, mode) => ForceMode(p, at, mode)
  }
}
