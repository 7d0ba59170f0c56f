/** The latency policy over whole runs: every change of mode is told exactly from the commands
    given and the changes made so far. */
module LatencyRuns {
  import opened Wire
  import opened NearestRank
  import opened LatencyModel

  function Run(direction: Direction, commands: seq<Command>): Policy {
    if commands == [] then Fresh(direction)
    else React(Run(direction, commands[..|commands| - 1]), commands[|commands| - 1]).policy
  }

  /** A command, and the change of mode it brought about, if any. */
  datatype Entry = Entry(command: Command, change: Option<Transition>)

  function History(direction: Direction, commands: seq<Command>): seq<Entry> {
    if commands == [] then []
    else
      var (earlier, c) := (commands[..|commands| - 1], commands[|commands| - 1]);
      History(direction, earlier) + [Entry(c, React(Run(direction, earlier), c).transition)]
  }

  // ---- Reading a history ----

  function Before(h: seq<Entry>): seq<Entry>
    requires h != []
  {
    h[..|h| - 1]
  }

  function Latest(h: seq<Entry>): Entry
    requires h != []
  {
    h[|h| - 1]
  }

  function ModeIn(h: seq<Entry>): Mode {
    if h == [] then QualityFirst
    else if Latest(h).change.Some? then Latest(h).change.value.after
    else ModeIn(Before(h))
  }

  /** When the mode last changed. */
  function ChangedAt(h: seq<Entry>): Option<nat> {
    if h == [] then None
    else if Latest(h).change.Some? then Some(Latest(h).change.value.at)
    else ChangedAt(Before(h))
  }

  /** Utterances must be reported in the order they were stamped; others are passed over. */
  function LastRecord(h: seq<Entry>): Option<nat>
    decreases |h|, 0
  {
    if h == [] then None
    else if Recorded(Before(h), Latest(h).command) then Some(Latest(h).command.at)
    else LastRecord(Before(h))
  }

  predicate Recorded(h: seq<Entry>, c: Command)
    decreases |h|, 1
  {
    c.Record? && (LastRecord(h).Some? ==> c.at > LastRecord(h).value)
  }

  /** So must looks at the playback queue. */
  function LastLook(h: seq<Entry>): Option<nat>
    decreases |h|, 0
  {
    if h == [] then None
    else if Looked(Before(h), Latest(h).command) then Some(Latest(h).command.at)
    else LastLook(Before(h))
  }

  predicate Looked(h: seq<Entry>, c: Command)
    decreases |h|, 1
  {
    c.Observe? && (LastLook(h).Some? ==> c.at > LastLook(h).value)
  }

  /** A window ends at a whole minute, each at most once and in order. */
  function LastEnd(h: seq<Entry>): nat
    decreases |h|, 0
  {
    if h == [] then 0
    else if Ends(Before(h), Latest(h).command) then Latest(h).command.end
    else LastEnd(Before(h))
  }

  predicate Ends(h: seq<Entry>, c: Command)
    decreases |h|, 1
  {
    c.Evaluate? && c.end % 60_000 == 0 && c.end > LastEnd(h)
  }

  /** The utterances recorded since the mode last changed. */
  function SamplesIn(h: seq<Entry>): seq<TimedSample> {
    if h == [] || Latest(h).change.Some? then []
    else
      var (xs, c) := (SamplesIn(Before(h)), Latest(h).command);
      if Recorded(Before(h), c) then xs + [TimedSample(c.at, c.sample)] else xs
  }

  function Stamped(xs: seq<TimedSample>, from: nat, to: nat): seq<Sample> {
    if xs == [] then []
    else (if from <= xs[0].at < to then [xs[0].value] else []) + Stamped(xs[1..], from, to)
  }

  /** How many played their first audio in time. */
  function Prompt(xs: seq<Sample>, limit: nat): nat {
    if xs == [] then 0 else (if xs[0].firstAudioMs <= limit then 1 else 0) + Prompt(xs[1..], limit)
  }

  /** How many found the queue short enough. */
  function Smooth(xs: seq<Sample>, limit: nat): nat {
    if xs == [] then 0 else (if xs[0].queueLagMs <= limit then 1 else 0) + Smooth(xs[1..], limit)
  }

  function FirstLimit(mode: Mode): nat {
    match mode case QualityFirst => 3_000 case Balanced => 2_000 case StreamingFirst => 1_000
  }

  function LagLimit(mode: Mode): nat {
    match mode case QualityFirst => 500 case Balanced => 350 case StreamingFirst => 250
  }

  datatype Window = Sparse | Slow | Healthy

  /** A window of the minute before `end`: too few utterances to tell, or fewer than 95 in a
      hundred prompt, or fewer than 95 in a hundred smooth, or neither. */
  function Kind(h: seq<Entry>, end: nat): Window
    requires end >= 60_000
  {
    var xs := Stamped(SamplesIn(h), end - 60_000, end);
    if |xs| < 20 then Sparse
    else if 100 * Prompt(xs, FirstLimit(ModeIn(h))) < 95 * |xs| then Slow
    else if 100 * Smooth(xs, LagLimit(ModeIn(h))) < 95 * |xs| then Slow
    else Healthy
  }

  /** The window a command closes, if it closes one. */
  function Closes(h: seq<Entry>, c: Command): Option<Window> {
    if Ends(h, c) then Some(Kind(h, c.end)) else None
  }

  /** The ends of the unbroken run of windows of one kind since the mode last changed. */
  function Streak(h: seq<Entry>, kind: Window): seq<nat> {
    if h == [] || Latest(h).change.Some? then []
    else
      match Closes(Before(h), Latest(h).command)
      case None => Streak(Before(h), kind)
      case Some(w) => if w == kind then Streak(Before(h), kind) + [Latest(h).command.end] else []
  }

  predicate Lagging(h: seq<Entry>, c: Command) {
    c.Observe? && ModeIn(h) != StreamingFirst && c.lag.Some? && c.lag.value > 500
  }

  /** The times of the unbroken run of looks at a lagging queue since the mode last changed. */
  function LagRun(h: seq<Entry>): seq<nat> {
    if h == [] || Latest(h).change.Some? then []
    else
      var c := Latest(h).command;
      if !Looked(Before(h), c) then LagRun(Before(h))
      else if Lagging(Before(h), c) then LagRun(Before(h)) + [c.at]
      else []
  }

  predicate Late(h: seq<Entry>, c: Command) {
    c.Record? && ModeIn(h) != StreamingFirst && c.sample.firstAudioMs > FirstLimit(ModeIn(h))
  }

  /** The times of the unbroken run of late utterances since the mode last changed. */
  function LateRun(h: seq<Entry>): seq<nat> {
    if h == [] || Latest(h).change.Some? then []
    else
      var c := Latest(h).command;
      if !Recorded(Before(h), c) then LateRun(Before(h))
      else if Late(Before(h), c) then LateRun(Before(h)) + [c.at]
      else []
  }

  // ---- When the mode changes ----

  function Faster(mode: Mode): Mode {
    if mode == QualityFirst then Balanced else StreamingFirst
  }

  function Better(mode: Mode): Mode {
    if mode == StreamingFirst then Balanced else QualityFirst
  }

  /** Two minutes after the last change, as far as the clock goes. */
  function Rested(h: seq<Entry>): nat {
    if ChangedAt(h).None? then 0
    else if ChangedAt(h).value + 120_000 <= 0xFFFF_FFFF_FFFF_FFFF then ChangedAt(h).value + 120_000
    else 0xFFFF_FFFF_FFFF_FFFF
  }

  /** The change a command brings about: the third late utterance in a row, a queue lagging for
      two seconds without a break, the second slow window in a row, the fifth healthy one once
      two minutes have passed, or an order. */
  function Due(direction: Direction, h: seq<Entry>, c: Command): Option<Transition> {
    var mode := ModeIn(h);
    match c
    case Record(at, _) =>
      if Recorded(h, c) && Late(h, c) && |LateRun(h)| >= 2
      then Some(Transition(direction, mode, Faster(mode), ConsecutiveUtterances, at)) else None
    case Observe(at, _) =>
      if Looked(h, c) && Lagging(h, c) && LagRun(h) != [] && at >= LagRun(h)[0] + 2_000
      then Some(Transition(direction, mode, Faster(mode), SustainedQueueLag, at)) else None
    case Evaluate(end) =>
      if Closes(h, c) == Some(Slow) && mode != StreamingFirst && |Streak(h, Slow)| >= 1
      then Some(Transition(direction, mode, Faster(mode), WindowBreach, end))
      else if Closes(h, c) == Some(Healthy) && mode != QualityFirst && |Streak(h, Healthy)| >= 4 && end >= Rested(h)
      then Some(Transition(direction, mode, Better(mode), StableRecovery, end))
      else None
    case Force(at, wanted) =>
      if wanted != mode then Some(Transition(direction, mode, wanted, ManualPolicyChange, at)) else None
  }

  // ---- A percentile above a limit ----

  lemma {:induction false} PromptCounts(xs: seq<Sample>, limit: nat)
    ensures Prompt(xs, limit) == AtMost(FirstAudios(xs), limit) && Smooth(xs, limit) == AtMost(QueueLags(xs), limit)
  {
    if xs != [] {
      PromptCounts(xs[1..], limit);
      var (x, rest) := (xs[0], xs[1..]);
      assert FirstAudios(xs) == [x.firstAudioMs] + FirstAudios(rest);
      assert QueueLags(xs) == [x.queueLagMs] + QueueLags(rest);
      AtMostCons(x.firstAudioMs, FirstAudios(rest), limit);
      AtMostCons(x.queueLagMs, QueueLags(rest), limit);
    }
  }

  lemma {:induction false} AtMostCons(x: nat, xs: seq<nat>, v: nat)
    ensures AtMost([x] + xs, v) == (if x <= v then 1 else 0) + AtMost(xs, v)
  {
    if xs == [] {
      assert [x] + xs == [x] && [x][..0] == [];
      assert AtMost([x], v) == AtMost([], v) + if x <= v then 1 else 0;
    } else {
      assert ([x] + xs)[..|xs|] == [x] + xs[..|xs| - 1];
      AtMostCons(x, xs[..|xs| - 1], v);
    }
  }

  lemma {:induction false} AtMostGrows(xs: seq<nat>, a: nat, b: nat)
    requires a <= b
    ensures AtMost(xs, a) <= AtMost(xs, b)
  {
    if xs != [] { AtMostGrows(xs[..|xs| - 1], a, b); }
  }

  /** The percentile is above a limit exactly when too few values keep it. */
  lemma P95Above(values: seq<nat>, limit: nat)
    requires values != []
    ensures P95(values) > limit <==> 100 * AtMost(values, limit) < 95 * |values|
  {
    hide P95;
    P95IsP95(values);
    var p := P95(values);
    if p > limit {
      CountsGrow(values, limit, p);
    } else {
      AtMostGrows(values, p, limit);
    }
  }

  lemma {:induction false} StampedIsWithin(xs: seq<TimedSample>, from: nat, to: nat)
    ensures Stamped(xs, from, to) == Within(xs, from, to)
  {
    if xs != [] {
      var n := |xs| - 1;
      StampedIsWithin(xs[..n], from, to);
      StampedMore(xs[..n], xs[n], from, to);
      assert xs == xs[..n] + [xs[n]];
    }
  }

  lemma {:induction false} StampedMore(xs: seq<TimedSample>, x: TimedSample, from: nat, to: nat)
    ensures Stamped(xs + [x], from, to) == Stamped(xs, from, to) + if from <= x.at < to then [x.value] else []
  {
    if xs == [] {
      assert [] + [x] == [x] && [x][1..] == [];
      assert Stamped([x], from, to) == if from <= x.at < to then [x.value] else [];
    } else {
      assert (xs + [x])[1..] == xs[1..] + [x];
      StampedMore(xs[1..], x, from, to);
    }
  }

  /** What was dropped when a window closed was stamped before its end. */
  lemma {:induction false} StampedAfter(xs: seq<TimedSample>, end: nat, from: nat, to: nat)
    requires end <= from
    ensures Stamped(NotBefore(xs, end), from, to) == Stamped(xs, from, to)
  {
    if xs != [] {
      var n := |xs| - 1;
      StampedAfter(xs[..n], end, from, to);
      StampedMore(xs[..n], xs[n], from, to);
      assert xs == xs[..n] + [xs[n]];
      if xs[n].at >= end {
        StampedMore(NotBefore(xs[..n], end), xs[n], from, to);
      } else {
        assert NotBefore(xs, end) == NotBefore(xs[..n], end);
      }
    }
  }

  // ---- The policy's memory is its history ----

  ghost predicate SameWindows(p: Policy, h: seq<Entry>) {
    forall from, to :: from >= LastEnd(h) ==> Stamped(p.samples, from, to) == Stamped(SamplesIn(h), from, to)
  }

  ghost predicate Meant(p: Policy, direction: Direction, h: seq<Entry>) {
    && p.direction == direction && p.state.mode == ModeIn(h)
    && (p.state.changed.Some? <==> ChangedAt(h).Some?)
    && (p.state.changed.Some? ==> p.state.changed.value.0 == ChangedAt(h).value)
    && (p.state.mode != QualityFirst ==> p.state.changed.Some?) && p.cooldownUntil == Rested(h)
    && p.lastUtteranceAt == LastRecord(h) && p.lastQueueAt == LastLook(h) && p.lastEvaluatedEnd == LastEnd(h)
    && LastEnd(h) % 60_000 == 0
    && p.queueBreachStarted == (if LagRun(h) == [] then None else Some(LagRun(h)[0]))
    && p.consecutiveBreaches == |LateRun(h)|
    && (p.state.mode != StreamingFirst ==> p.breachWindows == |Streak(h, Slow)|)
    && (p.state.mode != QualityFirst ==> p.recoveryWindows == |Streak(h, Healthy)|)
    && SameWindows(p, h)
  }

  lemma OneMore(h: seq<Entry>, x: Entry)
    ensures Before(h + [x]) == h && Latest(h + [x]) == x
  {}

  /** A change of mode starts everything over. */
  lemma Changes(h: seq<Entry>, x: Entry)
    requires x.change.Some?
    ensures var more := h + [x];
            && ModeIn(more) == x.change.value.after && ChangedAt(more) == Some(x.change.value.at)
            && SamplesIn(more) == [] && LagRun(more) == [] && LateRun(more) == []
            && (forall kind :: Streak(more, kind) == [])
            && LastRecord(more) == (if Recorded(h, x.command) then Some(x.command.at) else LastRecord(h))
            && LastLook(more) == (if Looked(h, x.command) then Some(x.command.at) else LastLook(h))
            && LastEnd(more) == (if Ends(h, x.command) then x.command.end else LastEnd(h))
  {
    OneMore(h, x);
  }

  /** Otherwise one command is added to what it concerns. */
  lemma GoesOn(h: seq<Entry>, x: Entry)
    requires x.change.None?
    ensures var (more, c) := (h + [x], x.command);
            && ModeIn(more) == ModeIn(h) && ChangedAt(more) == ChangedAt(h)
            && SamplesIn(more) ==
                 (if Recorded(h, c) then SamplesIn(h) + [TimedSample(c.at, c.sample)] else SamplesIn(h))
            && LagRun(more) == (if !Looked(h, c) then LagRun(h) else if Lagging(h, c) then LagRun(h) + [c.at] else [])
            && LateRun(more) == (if !Recorded(h, c) then LateRun(h) else if Late(h, c) then LateRun(h) + [c.at] else [])
            && (forall kind :: Streak(more, kind) ==
                  match Closes(h, c)
                  case None => Streak(h, kind)
                  case Some(w) => if w == kind then Streak(h, kind) + [c.end] else [])
            && LastRecord(more) == (if Recorded(h, c) then Some(c.at) else LastRecord(h))
            && LastLook(more) == (if Looked(h, c) then Some(c.at) else LastLook(h))
            && LastEnd(more) == (if Ends(h, c) then c.end else LastEnd(h))
  {
    OneMore(h, x);
  }

  lemma RecordMeant(p: Policy, direction: Direction, h: seq<Entry>, c: Command)
    requires Meant(p, direction, h) && c.Record?
    ensures var r := React(p, c);
            r.transition == Due(direction, h, c) && Meant(r.policy, direction, h + [Entry(c, r.transition)])
  {
    hide ModeIn, ChangedAt, LastRecord, LastLook, LastEnd, SamplesIn, LagRun, LateRun, Streak, Stamped, Rested;
    var r := React(p, c);
    var x := Entry(c, r.transition);
    if r.transition.Some? {
      Changes(h, x);
      RestedChanged(h, x);
      NothingStamped(r.policy, h + [x]);
    } else {
      GoesOn(h, x);
      RestedStill(h, x);
      if Recorded(h, c) {
        forall from, to | from >= LastEnd(h)
          ensures Stamped(r.policy.samples, from, to) == Stamped(SamplesIn(h + [x]), from, to)
        {
          StampedMore(p.samples, TimedSample(c.at, c.sample), from, to);
          StampedMore(SamplesIn(h), TimedSample(c.at, c.sample), from, to);
        }
      }
    }
  }

  lemma RestedChanged(h: seq<Entry>, x: Entry)
    requires x.change.Some?
    ensures Rested(h + [x]) == CooldownFrom(x.change.value.at)
  {
    OneMore(h, x);
  }

  lemma RestedStill(h: seq<Entry>, x: Entry)
    requires x.change.None?
    ensures Rested(h + [x]) == Rested(h)
  {
    OneMore(h, x);
  }

  lemma NothingStamped(p: Policy, h: seq<Entry>)
    requires p.samples == [] && SamplesIn(h) == []
    ensures SameWindows(p, h)
  {}

  lemma ObserveMeant(p: Policy, direction: Direction, h: seq<Entry>, c: Command)
    requires Meant(p, direction, h) && (c.Observe? || c.Force?)
    ensures var r := React(p, c);
            r.transition == Due(direction, h, c) && Meant(r.policy, direction, h + [Entry(c, r.transition)])
  {
    hide ModeIn, ChangedAt, LastRecord, LastLook, LastEnd, SamplesIn, LagRun, LateRun, Streak, Stamped, Rested;
    var r := React(p, c);
    var x := Entry(c, r.transition);
    if r.transition.Some? {
      Changes(h, x);
      RestedChanged(h, x);
      NothingStamped(r.policy, h + [x]);
    } else {
      GoesOn(h, x);
      RestedStill(h, x);
    }
  }

  lemma BreachedIs(mode: Mode, xs: seq<Sample>)
    requires xs != []
    ensures Breached(mode, xs) <==> || 100 * Prompt(xs, FirstLimit(mode)) < 95 * |xs|
                                    || 100 * Smooth(xs, LagLimit(mode)) < 95 * |xs|
  {
    hide P95, AtMost, Prompt, Smooth, FirstAudios, QueueLags;
    PromptCounts(xs, FirstLimit(mode));
    PromptCounts(xs, LagLimit(mode));
    P95Above(FirstAudios(xs), FirstLimit(mode));
    P95Above(QueueLags(xs), LagLimit(mode));
  }

  /** The machine's verdict on a window is the history's. */
  lemma SameWindow(p: Policy, direction: Direction, h: seq<Entry>, end: nat)
    requires Meant(p, direction, h) && Ends(h, Evaluate(end))
    ensures end >= 60_000 && Kind(h, end) == Verdict(p, end)
  {
    hide P95, ModeIn, LastEnd, SamplesIn, LagRun, LateRun, Streak, Stamped, Within, Rested, SameWindows, Breached,
         Prompt, Smooth, ChangedAt, LastRecord, LastLook, Recorded, Looked;
    SameStamped(p, direction, h, end);
    StampedIsWithin(p.samples, end - 60_000, end);
    var xs := Stamped(SamplesIn(h), end - 60_000, end);
    if |xs| >= 20 {
      BreachedIs(ModeIn(h), xs);
    }
  }

  lemma SameStamped(p: Policy, direction: Direction, h: seq<Entry>, end: nat)
    requires Meant(p, direction, h) && Ends(h, Evaluate(end))
    ensures end >= 60_000
    ensures Stamped(p.samples, end - 60_000, end) == Stamped(SamplesIn(h), end - 60_000, end)
  {
    hide ModeIn, LastEnd, SamplesIn, LagRun, LateRun, Streak, Stamped, Rested, ChangedAt, LastRecord, LastLook;
    EpochsApart(LastEnd(h), end);
  }

  /** What the machine makes of a window. */
  function Verdict(p: Policy, end: nat): Window
    requires end >= 60_000
  {
    var xs := Within(p.samples, end - 60_000, end);
    if |xs| < 20 then Sparse else if Breached(p.state.mode, xs) then Slow else Healthy
  }

  /** How a closed window moves the counters. */
  lemma EvaluateIs(p: Policy, end: nat)
    requires Evaluable(p, end)
    ensures var (r, w, mode) := (EvaluateEpoch(p, end), Verdict(p, end), p.state.mode);
            var degrades := w.Slow? && mode != StreamingFirst && p.breachWindows >= 1;
            var recovers := w.Healthy? && mode != QualityFirst && p.recoveryWindows >= 4 && end >= p.cooldownUntil;
            var p1 := p.(state := r.policy.state, lastEvaluatedEnd := end, samples := NotBefore(p.samples, end),
                         breachWindows := if w.Slow? && mode != StreamingFirst then p.breachWindows + 1 else 0,
                         recoveryWindows := if w.Healthy? && mode != QualityFirst then p.recoveryWindows + 1 else 0);
            && (!degrades && !recovers ==>
                  && r == Reaction(p1, None)
                  && p1.state.mode == mode && p1.state.changed == p.state.changed)
            && (degrades || recovers ==>
                  var (reason, after) := (if degrades then WindowBreach else StableRecovery,
                                          if degrades then Faster(mode) else Better(mode));
                  && r.transition == Some(Transition(p.direction, mode, after, reason, end))
                  && r.policy.state.mode == after && r.policy.state.changed == Some((end, reason))
                  && r.policy == p1.(samples := [], breachWindows := 0, recoveryWindows := 0, consecutiveBreaches := 0,
                                     queueBreachStarted := None, cooldownUntil := CooldownFrom(end)))
  {
    hide P95, Within, NotBefore, Breached, FirstAudios, LastAudios, QueueLags;
  }

  lemma EpochsApart(a: nat, b: nat)
    requires a % 60_000 == 0 && b % 60_000 == 0 && a < b
    ensures a + 60_000 <= b
  {}

  lemma EvaluateMeant(p: Policy, direction: Direction, h: seq<Entry>, c: Command)
    requires Meant(p, direction, h) && c.Evaluate?
    ensures var r := React(p, c);
            r.transition == Due(direction, h, c) && Meant(r.policy, direction, h + [Entry(c, r.transition)])
  {
    hide P95, ModeIn, ChangedAt, LastRecord, LastLook, LastEnd, SamplesIn, LagRun, LateRun, Streak, Stamped, Rested,
         NotBefore, Kind, Verdict, EvaluateEpoch, CooldownFrom;
    var r := React(p, c);
    var x := Entry(c, r.transition);
    if Ends(h, c) {
      SameWindow(p, direction, h, c.end);
      EvaluateIs(p, c.end);
      if r.transition.Some? {
        Changes(h, x);
        RestedChanged(h, x);
        NothingStamped(r.policy, h + [x]);
      } else {
        GoesOn(h, x);
        RestedStill(h, x);
        forall from, to | from >= c.end
          ensures Stamped(r.policy.samples, from, to) == Stamped(SamplesIn(h + [x]), from, to)
        {
          StampedAfter(p.samples, c.end, from, to);
        }
      }
    } else {
      NotEvaluated(p, c.end);
      GoesOn(h, x);
      RestedStill(h, x);
    }
  }

  lemma NotEvaluated(p: Policy, end: nat)
    ensures !(end % 60_000 == 0 && end > p.lastEvaluatedEnd) ==> EvaluateEpoch(p, end) == Reaction(p, None)
  {
    hide P95, Within, NotBefore, Breached;
  }

  /** Over every run the policy remembers what its history says. */
  lemma {:induction false} RunMeant(direction: Direction, commands: seq<Command>)
    ensures Meant(Run(direction, commands), direction, History(direction, commands))
  {
    if commands == [] {
      assert Meant(Fresh(direction), direction, []);
    } else {
      var (earlier, c) := (commands[..|commands| - 1], commands[|commands| - 1]);
      RunMeant(direction, earlier);
      hide Meant, React;
      StepMeant(Run(direction, earlier), direction, History(direction, earlier), c);
    }
  }

  lemma StepMeant(p: Policy, direction: Direction, h: seq<Entry>, c: Command)
    requires Meant(p, direction, h)
    ensures var r := React(p, c);
            r.transition == Due(direction, h, c) && Meant(r.policy, direction, h + [Entry(c, r.transition)])
  {
    hide Meant, React, Due;
    match c
    case Record(_, _) => RecordMeant(p, direction, h, c);
    case Evaluate(_) => EvaluateMeant(p, direction, h, c);
    case _ => ObserveMeant(p, direction, h, c);
  }

  // ---- The theorems, for every run ----

  /** The mode changes exactly when, to what, and for the reason that the history says. */
  lemma ChangesExactly(direction: Direction, commands: seq<Command>, c: Command)
    ensures React(Run(direction, commands), c).transition == Due(direction, History(direction, commands), c)
    ensures Run(direction, commands).state.mode == ModeIn(History(direction, commands))
  {
    RunMeant(direction, commands);
    hide React, Run, History, Due, ModeIn;
    StepMeant(Run(direction, commands), direction, History(direction, commands), c);
  }

  /** The stored start of a queue breach is the first time of the unbroken breaching run. */
  lemma BreachStartIsFirst(direction: Direction, commands: seq<Command>)
    ensures var run := LagRun(History(direction, commands));
            Run(direction, commands).queueBreachStarted == if run == [] then None else Some(run[0])
  {
    RunMeant(direction, commands);
    hide Run, History;
  }

  /** The queue trips exactly when it has lagged for two seconds without a break. */
  lemma QueueTripsIff(direction: Direction, commands: seq<Command>, at: nat, lag: Option<nat>)
    ensures var (h, c) := (History(direction, commands), Observe(at, lag));
            var t := React(Run(direction, commands), c).transition;
            && (t.Some? <==> Looked(h, c) && Lagging(h, c) && LagRun(h) != [] && at >= LagRun(h)[0] + 2_000)
            && (t.Some? ==> t.value.reason == SustainedQueueLag && t.value.after == Faster(ModeIn(h)))
  {
    ChangesExactly(direction, commands, Observe(at, lag));
    hide React, Run, History;
  }

  /** The third late utterance in a row trips, unless there is no faster mode. */
  lemma UtterancesTripIff(direction: Direction, commands: seq<Command>, at: nat, sample: Sample)
    ensures var (h, c) := (History(direction, commands), Record(at, sample));
            var t := React(Run(direction, commands), c).transition;
            && (t.Some? <==> Recorded(h, c) && Late(h, c) && |LateRun(h)| >= 2)
            && (t.Some? ==> t.value.reason == ConsecutiveUtterances && t.value.after == Faster(ModeIn(h)))
  {
    ChangesExactly(direction, commands, Record(at, sample));
    hide React, Run, History;
  }

  /** An automatic change moves one step, towards speed for latency and back for recovery,
      and is the only way the mode changes. */
  lemma OneStepAtATime(p: Policy, c: Command)
    ensures var r := React(p, c);
            && r.policy.direction == p.direction
            && (r.transition.None? ==> r.policy.state.mode == p.state.mode && r.policy.state.changed == p.state.changed)
            && (r.transition.Some? ==>
                  && r.transition.value.direction == p.direction
                  && r.transition.value.before == p.state.mode != r.transition.value.after == r.policy.state.mode
                  && (if c.Force? then r.transition.value.after == c.mode
                      else if r.transition.value.reason.StableRecovery?
                      then r.policy.state.mode == Better(p.state.mode)
                      else r.policy.state.mode == Faster(p.state.mode)))
  {
    hide P95, Breached, Within, NotBefore;
  }

  predicate Recovers(r: Reaction) {
    r.transition.Some? && r.transition.value.reason.StableRecovery?
  }

  predicate WindowBreaks(r: Reaction) {
    r.transition.Some? && r.transition.value.reason.WindowBreach?
  }

  /** The mode degrades for slow windows exactly at the second one in a row. */
  lemma DegradesAtSecond(direction: Direction, commands: seq<Command>, c: Command)
    ensures var h := History(direction, commands);
            WindowBreaks(React(Run(direction, commands), c)) <==>
              Closes(h, c) == Some(Slow) && ModeIn(h) != StreamingFirst && |Streak(h, Slow)| == 1
  {
    ChangesExactly(direction, commands, c);
    OneSlowAtMost(direction, commands);
    hide React, Run, History, ModeIn, Streak, Kind, LateRun, LagRun;
  }

  lemma {:induction false} OneSlowAtMost(direction: Direction, commands: seq<Command>)
    ensures var h := History(direction, commands); ModeIn(h) != StreamingFirst ==> |Streak(h, Slow)| <= 1
  {
    if commands != [] {
      var (earlier, c) := (commands[..|commands| - 1], commands[|commands| - 1]);
      OneSlowAtMost(direction, earlier);
      ChangesExactly(direction, earlier, c);
      var h := History(direction, earlier);
      var x := Entry(c, React(Run(direction, earlier), c).transition);
      hide React, Run, ModeIn, Streak, Closes, LateRun, LagRun;
      if x.change.Some? { Changes(h, x); } else { GoesOn(h, x); }
    }
  }

  // ---- Recovery ----

  /** Utterances recorded after a change of mode are not stamped before it. */
  ghost predicate Punctual(h: seq<Entry>) {
    forall i :: 0 <= i < |h| && h[i].command.Record? && ChangedAt(h[..i]).Some? ==>
      h[i].command.at >= ChangedAt(h[..i]).value
  }

  /** Healthy windows since a change close after it, a whole minute apart, at most four of them. */
  ghost predicate Spaced(h: seq<Entry>) {
    var ends := Streak(h, Healthy);
    && (forall i :: 0 <= i < |ends| ==> ends[i] % 60_000 == 0 && ends[i] <= LastEnd(h))
    && (ChangedAt(h).Some? ==> forall i :: 0 <= i < |ends| ==> ends[i] > ChangedAt(h).value + i * 60_000)
    && (ChangedAt(h).Some? ==> forall x <- SamplesIn(h) :: x.at >= ChangedAt(h).value)
    && (ModeIn(h) != QualityFirst ==> |ends| <= 4 && ChangedAt(h).Some?)
  }

  lemma {:induction false} StampedOf(xs: seq<TimedSample>, from: nat, to: nat)
    ensures Stamped(xs, from, to) != [] ==> exists x <- xs :: from <= x.at < to
  {
    if xs != [] {
      StampedOf(xs[1..], from, to);
      assert xs[0] in xs;
      assert forall x <- xs[1..] :: x in xs;
    }
  }

  /** A healthy window closes after the last change, and a minute after the one before it. */
  lemma HealthyAfter(h: seq<Entry>, c: Command)
    requires Spaced(h) && Closes(h, c) == Some(Healthy)
    ensures c.end % 60_000 == 0 && c.end > LastEnd(h)
    ensures ChangedAt(h).Some? ==> c.end > ChangedAt(h).value + |Streak(h, Healthy)| * 60_000
  {
    StampedOf(SamplesIn(h), c.end - 60_000, c.end);
    var ends := Streak(h, Healthy);
    if |ends| > 0 {
      EpochsApart(ends[|ends| - 1], c.end);
    }
    hide ModeIn, ChangedAt, LastEnd, Streak, Stamped, SamplesIn, Prompt, Smooth;
  }

  lemma SpacedMore(direction: Direction, h: seq<Entry>, c: Command)
    requires Spaced(h) && (c.Record? && ChangedAt(h).Some? ==> c.at >= ChangedAt(h).value)
    ensures Spaced(h + [Entry(c, Due(direction, h, c))])
    ensures Closes(h, c) == Some(Healthy) && ModeIn(h) != QualityFirst && |Streak(h, Healthy)| >= 4 ==>
              c.end > ChangedAt(h).value + 240_000 && c.end >= Rested(h)
  {
    if Closes(h, c) == Some(Healthy) {
      HealthyAfter(h, c);
    }
    var x := Entry(c, Due(direction, h, c));
    hide ModeIn, ChangedAt, LastRecord, LastLook, LastEnd, SamplesIn, LagRun, LateRun, Streak, Kind;
    if x.change.Some? {
      Changes(h, x);
    } else {
      GoesOn(h, x);
    }
  }

  lemma {:induction false} RunSpaced(direction: Direction, commands: seq<Command>)
    requires Punctual(History(direction, commands))
    ensures Spaced(History(direction, commands))
  {
    if commands != [] {
      var (earlier, c) := (commands[..|commands| - 1], commands[|commands| - 1]);
      var (h, all) := (History(direction, earlier), History(direction, commands));
      ChangesExactly(direction, earlier, c);
      hide React, Run, Spaced, Due, ChangedAt;
      assert all == h + [Entry(c, Due(direction, h, c))];
      assert forall i :: 0 <= i < |h| ==> all[..i] == h[..i] && all[i] == h[i];
      assert all[..|h|] == h && all[|h|].command == c;
      RunSpaced(direction, earlier);
      SpacedMore(direction, h, c);
    }
  }

  /** The mode recovers exactly at the fifth consecutive healthy window, which always ends
      more than 240 seconds after the last change of mode, so the two minutes never decide. */
  lemma RecoversAtFifth(direction: Direction, commands: seq<Command>, c: Command)
    requires Punctual(History(direction, commands))
    ensures var h := History(direction, commands);
            && (Recovers(React(Run(direction, commands), c)) <==>
                  Closes(h, c) == Some(Healthy) && ModeIn(h) != QualityFirst && |Streak(h, Healthy)| == 4)
            && (Recovers(React(Run(direction, commands), c)) ==>
                  ChangedAt(h).Some? && c.end > ChangedAt(h).value + 240_000)
  {
    var h := History(direction, commands);
    ChangesExactly(direction, commands, c);
    RunSpaced(direction, commands);
    if c.Evaluate? {
      SpacedMore(direction, h, c);
    }
    hide React, Run, History, Kind, LateRun, LagRun, Streak, ModeIn, ChangedAt, SamplesIn;
  }

  // ---- What is reported ----

  /** A full window is reported by its percentiles, and otherwise the report stays. */
  lemma ReportsPercentiles(p: Policy, end: nat)
    requires end >= 60_000 && end % 60_000 == 0 && end > p.lastEvaluatedEnd
    ensures var (xs, s) := (Stamped(p.samples, end - 60_000, end), EvaluateEpoch(p, end).policy.state);
            if |xs| < 20 then s == p.state
            else && IsP95(FirstAudios(xs), s.p95FirstAudioMs) && IsP95(LastAudios(xs), s.p95LastAudioMs)
                 && IsP95(QueueLags(xs), s.p95QueueLagMs)
  {
    hide P95, Within, Stamped, FirstAudios, LastAudios, QueueLags, IsP95, EvaluateEpoch;
    StampedIsWithin(p.samples, end - 60_000, end);
    ReportIs(p, end);
    var xs := Within(p.samples, end - 60_000, end);
    if |xs| >= 20 {
      P95IsP95(FirstAudios(xs));
      P95IsP95(LastAudios(xs));
      P95IsP95(QueueLags(xs));
    }
  }

  lemma ReportIs(p: Policy, end: nat)
    requires Evaluable(p, end)
    ensures var (xs, s) := (Within(p.samples, end - 60_000, end), EvaluateEpoch(p, end).policy.state);
            if |xs| < 20 then s == p.state
            else && s.p95FirstAudioMs == P95(FirstAudios(xs)) && s.p95LastAudioMs == P95(LastAudios(xs))
                 && s.p95QueueLagMs == P95(QueueLags(xs))
  {
    hide P95, Within, NotBefore, Breached, FirstAudios, LastAudios, QueueLags;
  }

  /** Nothing else changes the report: percentiles survive a change of mode. */
  lemma ReportStays(p: Policy, c: Command)
    requires !c.Evaluate?
    ensures var (s, s') := (p.state, React(p, c).policy.state);
            && s'.p95FirstAudioMs == s.p95FirstAudioMs && s'.p95LastAudioMs == s.p95LastAudioMs
            && s'.p95QueueLagMs == s.p95QueueLagMs
  {
    hide EvaluateEpoch;
  }
}
