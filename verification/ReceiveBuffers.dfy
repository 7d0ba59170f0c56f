/** The coordinator's receive buffers over whole runs: audio that was accepted waits in order
    until it is taken out, at most 400 ms of it, and is thrown away with its utterance. */
module ReceiveBuffers {
  import opened Wire
  import W = WatchdogModel
  import V = ValidatorModel
  import opened CoordinatorModel
  import K = Coupling

  type Key = (Uuid, Uuid)

  /** A call, whether it succeeded, and whose buffers a poll cleared. */
  datatype Entry = Entry(op: K.Op, ok: bool, alarm: Option<PollOutcome>)

  function Succeeds(c: Coordinator, op: K.Op): bool {
    match op
    case Start(s, u, at) => StartUtterance(c, s, u, at).error.None?
    case EndOfUtterance(s, u, at) => RecordEndOfUtterance(c, s, u, at).error.None?
    case Receive(e, at) => ValidateEvent(c, e, at).error.None?
    case PollAt(at) => Poll(c, at).outcome.Rang?
    case CancelExpired(s, u, at) => CancelExpiredUtterance(c, s, u, at).error.None?
    case Consume(s, u) => ConsumeReceiveAudio(c, s, u).pcm.Some?
  }

  function Answer(c: Coordinator, op: K.Op): Entry {
    Entry(op, Succeeds(c, op), if op.PollAt? then Some(Poll(c, op.at).outcome) else None)
  }

  function History(contract: Contract, ops: seq<K.Op>): seq<Entry> {
    if ops == [] then []
    else
      var (before, op) := (ops[..|ops| - 1], ops[|ops| - 1]);
      History(contract, before) + [Answer(K.Run(contract, before), op)]
  }

  // ---- Reading a history ----

  function Before(h: seq<Entry>): seq<Entry>
    requires h != []
  {
    h[..|h| - 1]
  }

  function Latest(h: seq<Entry>): Entry
    requires h != []
  {
    h[|h| - 1]
  }

  /** The stream an utterance was last started on. */
  function StreamOf(h: seq<Entry>, u: Uuid): Option<Uuid> {
    if h == [] then None
    else
      var x := Latest(h);
      if x.op.Start? && x.ok && x.op.utterance == u then Some(x.op.stream) else StreamOf(Before(h), u)
  }

  /** Whether the call throws away what waits under the key. */
  predicate Clears(h: seq<Entry>, x: Entry, k: Key) {
    match x.op
    case Receive(e, _) =>
      && x.ok
      && (|| e.SessionClosed?
          || (e.UtteranceFinal? && !e.outcome.Completed? && (e.stream, e.utterance) == k))
    case PollAt(_) =>
      x.alarm.Some? && x.alarm.value.Rang? &&
      (match x.alarm.value.alarm
       case Cancel(us) => k.1 in us && StreamOf(h, k.1) == Some(k.0)
       case _ => true)
    case CancelExpired(s, u, _) => x.ok && (s, u) == k
    case _ => false
  }

  /** What waits under the key, oldest first. */
  function Waiting(h: seq<Entry>, k: Key): seq<BufferedFrame> {
    if h == [] then []
    else
      var (fs, x) := (Waiting(Before(h), k), Latest(h));
      if Clears(Before(h), x, k) then []
      else if x.op.Receive? && x.ok && x.op.event.AudioDelta? && (x.op.event.stream, x.op.event.utterance) == k
      then fs + [BufferedFrame(x.op.event.pcm, x.op.event.format.frameDurationMs)]
      else if x.op.Consume? && (x.op.stream, x.op.utterance) == k && fs != [] then fs[1..]
      else fs
  }

  function Ms(fs: seq<BufferedFrame>): nat {
    if fs == [] then 0 else fs[0].ms + Ms(fs[1..])
  }

  // ---- The buffers are the history ----

  ghost predicate MeantAt(c: Coordinator, h: seq<Entry>, k: Key) {
    && (k in c.buffers <==> Waiting(h, k) != [])
    && (k in c.buffers ==> c.buffers[k] == ReceiveBuffer(Waiting(h, k), Ms(Waiting(h, k))))
    && Ms(Waiting(h, k)) <= 400
  }

  ghost predicate Meant(c: Coordinator, h: seq<Entry>) {
    && (forall k: Key :: MeantAt(c, h, k))
    && (forall u <- c.watchdog.utterances :: StreamOf(h, u) == Some(c.watchdog.utterances[u].stream))
  }

  lemma OneMore(h: seq<Entry>, x: Entry)
    ensures Before(h + [x]) == h && Latest(h + [x]) == x
  {}

  lemma {:induction false} MsMore(fs: seq<BufferedFrame>, f: BufferedFrame)
    ensures Ms(fs + [f]) == Ms(fs) + f.ms
  {
    if fs == [] {
      assert fs + [f] == [f] && [f][1..] == [];
    } else {
      assert (fs + [f])[1..] == fs[1..] + [f];
      MsMore(fs[1..], f);
    }
  }

  /** How one key's audio goes on. */
  lemma WaitingMore(h: seq<Entry>, x: Entry, k: Key)
    ensures var fs := Waiting(h, k);
            Waiting(h + [x], k) ==
            if Clears(h, x, k) then []
            else if x.op.Receive? && x.ok && x.op.event.AudioDelta? && (x.op.event.stream, x.op.event.utterance) == k
            then fs + [BufferedFrame(x.op.event.pcm, x.op.event.format.frameDurationMs)]
            else if x.op.Consume? && (x.op.stream, x.op.utterance) == k && fs != [] then fs[1..]
            else fs
  {
    OneMore(h, x);
  }

  lemma StreamMore(h: seq<Entry>, x: Entry, u: Uuid)
    ensures StreamOf(h + [x], u) ==
            if x.op.Start? && x.ok && x.op.utterance == u then Some(x.op.stream) else StreamOf(h, u)
  {
    OneMore(h, x);
  }

  /** Only starting an utterance changes which stream it is watched on. */
  lemma WatchedStreams(c: Coordinator, op: K.Op, u: Uuid)
    requires u in K.After(c, op).watchdog.utterances
    ensures var w' := K.After(c, op).watchdog.utterances;
            if op.Start? && Succeeds(c, op) && op.utterance == u then w'[u].stream == op.stream
            else u in c.watchdog.utterances && w'[u].stream == c.watchdog.utterances[u].stream
  {
    hide V.Validate;
  }

  // ---- One call ----

  lemma EventAt(c: Coordinator, h: seq<Entry>, e: Event, at: W.Ns, k: Key)
    requires K.Inv(c) && MeantAt(c, h, k)
    ensures MeantAt(K.After(c, K.Receive(e, at)), h + [Answer(c, K.Receive(e, at))], k)
  {
    hide V.Validate, Waiting;
    var x := Answer(c, K.Receive(e, at));
    WaitingMore(h, x, k);
    if e.AudioDelta? {
      MsMore(Waiting(h, k), BufferedFrame(e.pcm, e.format.frameDurationMs));
      if c.watchdog.phase.Active? && W.IsCancelPending(c.watchdog, e.stream, e.utterance) {
        K.CancelledAudioRefused(c, e, at);
      }
    }
    hide K.Inv, Ms;
  }

  lemma ConsumeAt(c: Coordinator, h: seq<Entry>, s: Uuid, u: Uuid, k: Key)
    requires MeantAt(c, h, k)
    ensures MeantAt(K.After(c, K.Consume(s, u)), h + [Answer(c, K.Consume(s, u))], k)
  {
    hide Waiting;
    WaitingMore(h, Answer(c, K.Consume(s, u)), k);
  }

  lemma PollClears(c: Coordinator, h: seq<Entry>, at: W.Ns, k: Key)
    requires k.1 in c.watchdog.utterances ==> StreamOf(h, k.1) == Some(c.watchdog.utterances[k.1].stream)
    ensures var c' := Poll(c, at).coordinator;
            && (Clears(h, Answer(c, K.PollAt(at)), k) ==> k !in c'.buffers)
            && (!Clears(h, Answer(c, K.PollAt(at)), k) ==>
                  (k in c'.buffers <==> k in c.buffers) && (k in c.buffers ==> c'.buffers[k] == c.buffers[k]))
  {
    hide StreamOf, V.CanRecordCancel;
    var p := W.Poll(c.watchdog, at);
    if p.alarm.Cancel? {
      assert p.alarm.utterances <= c.watchdog.utterances.Keys;
      assert k in BuffersOf(c.watchdog, p.alarm.utterances) <==>
               && k.1 in p.alarm.utterances && k.1 in c.watchdog.utterances
               && c.watchdog.utterances[k.1].stream == k.0;
    }
  }

  lemma PollAt(c: Coordinator, h: seq<Entry>, at: W.Ns, k: Key)
    requires MeantAt(c, h, k)
    requires k.1 in c.watchdog.utterances ==> StreamOf(h, k.1) == Some(c.watchdog.utterances[k.1].stream)
    ensures MeantAt(K.After(c, K.PollAt(at)), h + [Answer(c, K.PollAt(at))], k)
  {
    PollClears(c, h, at, k);
    WaitingMore(h, Answer(c, K.PollAt(at)), k);
    hide Waiting, StreamOf, Poll, Clears;
    assert Ms([]) == 0;
  }

  lemma OtherAt(c: Coordinator, h: seq<Entry>, op: K.Op, k: Key)
    requires MeantAt(c, h, k) && (op.Start? || op.EndOfUtterance? || op.CancelExpired?)
    ensures MeantAt(K.After(c, op), h + [Answer(c, op)], k)
  {
    hide Waiting, V.RecordInput, V.RecordEndOfUtterance, V.RecordCancelRequested, W.CancelUtterance;
    WaitingMore(h, Answer(c, op), k);
    assert Ms([]) == 0;
  }

  lemma StepMeant(c: Coordinator, h: seq<Entry>, op: K.Op)
    requires K.Inv(c) && Meant(c, h)
    ensures Meant(K.After(c, op), h + [Answer(c, op)])
  {
    hide K.Inv, K.After, Answer, Waiting, StreamOf, MeantAt;
    forall k: Key ensures MeantAt(K.After(c, op), h + [Answer(c, op)], k) {
      match op
      case Receive(e, at) => EventAt(c, h, e, at, k);
      case Consume(s, u) => ConsumeAt(c, h, s, u, k);
      case PollAt(at) => PollAt(c, h, at, k);
      case _ => OtherAt(c, h, op, k);
    }
    forall u <- K.After(c, op).watchdog.utterances
      ensures StreamOf(h + [Answer(c, op)], u) == Some(K.After(c, op).watchdog.utterances[u].stream)
    {
      WatchedStreams(c, op, u);
      AnswerIs(c, op);
      StreamMore(h, Answer(c, op), u);
    }
  }

  lemma AnswerIs(c: Coordinator, op: K.Op)
    ensures Answer(c, op).op == op && Answer(c, op).ok == Succeeds(c, op)
  {}

  lemma {:induction false} RunMeant(contract: Contract, ops: seq<K.Op>)
    ensures Meant(K.Run(contract, ops), History(contract, ops))
  {
    if ops != [] {
      var (before, op) := (ops[..|ops| - 1], ops[|ops| - 1]);
      RunMeant(contract, before);
      K.RunKeepsInv(contract, before);
      hide Meant, K.After, Answer, K.Inv;
      StepMeant(K.Run(contract, before), History(contract, before), op);
    } else {
      assert Ms([]) == 0;
    }
  }

  // ---- The theorems, for every run ----

  /** Over every run, taking audio out gives the oldest that waits, or nothing when none does, and
      never does more than 400 ms wait. */
  lemma OldestFirst(contract: Contract, ops: seq<K.Op>, stream: Uuid, u: Uuid)
    ensures var (fs, taken) := (Waiting(History(contract, ops), (stream, u)),
                                ConsumeReceiveAudio(K.Run(contract, ops), stream, u).pcm);
            taken == (if fs == [] then None else Some(fs[0].pcm)) && Ms(fs) <= 400
  {
    hide K.Run, History, Waiting;
    RunMeant(contract, ops);
    assert MeantAt(K.Run(contract, ops), History(contract, ops), (stream, u));
  }

  /** And audio that is right in every other way finds the buffer full exactly when more than
      400 ms would wait with it. */
  lemma FullIff(contract: Contract, ops: seq<K.Op>, e: Event, at: W.Ns)
    requires e.AudioDelta? && K.Run(contract, ops).watchdog.phase.Active?
    requires W.AudioError(K.Run(contract, ops).watchdog, e.stream, e.utterance, at).None?
    ensures var (c, h) := (K.Run(contract, ops), History(contract, ops));
            ValidateEvent(c, e, at).error == Some(ReceiveBufferFull) <==>
              Ms(Waiting(h, (e.stream, e.utterance))) + e.format.frameDurationMs > 400
  {
    RunMeant(contract, ops);
    var (c, h) := (K.Run(contract, ops), History(contract, ops));
    assert MeantAt(c, h, (e.stream, e.utterance));
    hide K.Run, History, Waiting, V.Validate;
    assert Ms([]) == 0;
  }
}
