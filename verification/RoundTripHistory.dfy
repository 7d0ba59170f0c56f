/** The self-test as a reader of its history: what it accepts and what it reports is fixed by
    the calls made and how they were answered. */
module RoundTripHistory {
  import opened Wire
  import P = ExactPcm
  import opened RoundTripModel
  import opened RoundTripRuns

  datatype Entry = Entry(call: Call, ok: bool)

  function Accepts(t: SelfTest, c: Call): bool {
    match c
    case Starting(p, at, id) => Start(t, p, at, id).error.None?
    case Advancing(id, checkpoint, latency) => Advance(t, id, checkpoint, latency).error.None?
    case Recursing(id) => RecordRecursion(t, id).error.None?
    case Proving(id, proof) => SetProof(t, id, proof).error.None?
    case Stopping(id) => Stop(t, id).done
    case Failing(id, error) => Fail(t, id, error).done
    case Expiring(at) => Expire(t, at).done
  }

  function History(calls: seq<Call>): seq<Entry> {
    if calls == [] then []
    else
      var (earlier, c) := (calls[..|calls| - 1], calls[|calls| - 1]);
      History(earlier) + [Entry(c, Accepts(Run(earlier), c))]
  }

  // ---- Reading a history ----

  function Before(h: seq<Entry>): seq<Entry>
    requires h != []
  {
    h[..|h| - 1]
  }

  function Latest(h: seq<Entry>): Entry
    requires h != []
  {
    h[|h| - 1]
  }

  predicate Starts(x: Entry) {
    x.call.Starting? && x.ok
  }

  /** The latest session, and when it was started. */
  function StartedIn(h: seq<Entry>): Option<(Uuid, nat)> {
    if h == [] then None
    else if Starts(Latest(h)) then Some((Latest(h).call.id, Latest(h).call.at))
    else StartedIn(Before(h))
  }

  function CheckpointIn(h: seq<Entry>): Checkpoint {
    if h == [] then Stopped
    else
      var x := Latest(h);
      if !x.ok then CheckpointIn(Before(h))
      else
        match x.call
        case Starting(_, _, _) => WaitingForSpeech
        case Advancing(_, c, _) => c
        case Stopping(_) => Stopped
        case Failing(_, _) => Failed
        case Expiring(_) => Stopped
        case _ => CheckpointIn(Before(h))
  }

  function ProofIn(h: seq<Entry>): Option<P.Proof> {
    if h == [] || Starts(Latest(h)) then None
    else if Latest(h).call.Proving? && Latest(h).ok then Some(Latest(h).call.proof)
    else ProofIn(Before(h))
  }

  function ErrorIn(h: seq<Entry>): Option<RoundTripError> {
    if h == [] || Starts(Latest(h)) then None
    else if Latest(h).call.Failing? && Latest(h).ok then Some(Latest(h).call.error)
    else if Latest(h).call.Expiring? && Latest(h).ok then Some(Timeout)
    else ErrorIn(Before(h))
  }

  /** How often speech began where there was some already. */
  function RecursionsIn(h: seq<Entry>): nat {
    if h == [] || Starts(Latest(h)) then 0
    else
      var n := RecursionsIn(Before(h));
      if Latest(h).call.Recursing? && Latest(h).ok && n < 0xFFFF_FFFF then n + 1 else n
  }

  /** The latest figure given for each latency. */
  function LatencyIn(h: seq<Entry>): Latencies {
    if h == [] || Starts(Latest(h)) then Latencies(None, None, None, None)
    else
      var (l, x) := (LatencyIn(Before(h)), Latest(h));
      if !x.call.Advancing? || !x.ok then l
      else
        var m := x.call.latency;
        Latencies(if m.outgoingFirst.Some? then m.outgoingFirst else l.outgoingFirst,
                  if m.englishComplete.Some? then m.englishComplete else l.englishComplete,
                  if m.incomingFirst.Some? then m.incomingFirst else l.incomingFirst,
                  if m.micToReturned.Some? then m.micToReturned else l.micToReturned)
  }

  // ---- What is accepted ----

  predicate Over(c: Checkpoint) {
    c in {Checkpoint.Completed, Failed, Stopped}
  }

  predicate Running(h: seq<Entry>, id: Uuid) {
    StartedIn(h).Some? && StartedIn(h).value.0 == id && !Over(CheckpointIn(h))
  }

  /** The checkpoint after `c` on the way. */
  ghost predicate Next(c: Checkpoint, d: Checkpoint) {
    exists i :: 0 <= i < 9 && WAY[i] == c && WAY[i + 1] == d
  }

  ghost predicate Admissible(h: seq<Entry>, c: Call) {
    match c
    case Starting(p, _, _) =>
      && (StartedIn(h).None? || Over(CheckpointIn(h)))
      && p.headphones && p.outgoingReady && p.incomingReady && p.graphReady && p.routeIdle
    case Advancing(id, d, latency) =>
      && Running(h, id) && Next(CheckpointIn(h), d)
      && (d == VirtualPeerReinjecting ==> latency.englishComplete.Some? && ProofIn(h).Some?)
    case Recursing(id) => StartedIn(h).Some? && StartedIn(h).value.0 == id
    case Proving(id, proof) => Running(h, id) && CheckpointIn(h) == EnglishFirstAudio && proof.exact
    case Stopping(id) => Running(h, id)
    case Failing(id, _) => Running(h, id)
    case Expiring(at) =>
      StartedIn(h).Some? && !Over(CheckpointIn(h)) && at >= StartedIn(h).value.1 + 300_000
  }

  // ---- The session is its history ----

  ghost predicate Meant(t: SelfTest, h: seq<Entry>) {
    && (t.session.Some? <==> StartedIn(h).Some?)
    && (t.session.Some? ==>
          var s := t.session.value;
          && StartedIn(h) == Some((s.id, s.startedAt))
          && s.checkpoint == CheckpointIn(h) && s.recursions == RecursionsIn(h) && s.latency == LatencyIn(h)
          && s.error == ErrorIn(h) && s.exactPcm == ProofIn(h)
          && (s.exactPcm.Some? ==> s.exactPcm.value.exact))
  }

  lemma OneMore(h: seq<Entry>, x: Entry)
    ensures Before(h + [x]) == h && Latest(h + [x]) == x
  {}

  lemma NextIs(c: Checkpoint, d: Checkpoint)
    ensures Next(c, d) <==> c.Following() == Some(d)
  {
    WayIs(c);
    WayApart();
    if Next(c, d) {
      var i :| 0 <= i < 9 && WAY[i] == c && WAY[i + 1] == d;
      assert i == Place(c);
    } else if Place(c) < 9 {
      assert WAY[Place(c)] == c;
    }
  }

  lemma WayApart()
    ensures forall i :: 0 <= i < 10 ==> Place(WAY[i]) == i
  {}

  lemma StepMeant(t: SelfTest, h: seq<Entry>, c: Call)
    requires Meant(t, h)
    ensures Accepts(t, c) <==> Admissible(h, c)
    ensures Meant(After(t, c), h + [Entry(c, Accepts(t, c))])
  {
    OneMore(h, Entry(c, Accepts(t, c)));
    if c.Advancing? {
      NextIs(CheckpointIn(h), c.checkpoint);
    }
    hide Next;
  }

  lemma {:induction false} RunMeant(calls: seq<Call>)
    ensures Meant(Run(calls), History(calls))
  {
    if calls != [] {
      var (earlier, c) := (calls[..|calls| - 1], calls[|calls| - 1]);
      RunMeant(earlier);
      hide Meant, After, Accepts, Admissible;
      StepMeant(Run(earlier), History(earlier), c);
    } else {
      NothingYet();
    }
  }

  lemma NothingYet()
    ensures Meant(SelfTest(None), [])
  {}

  /** Over every run, a call is accepted exactly when the calls accepted so far allow it. */
  lemma AcceptedIff(calls: seq<Call>, c: Call)
    ensures Accepts(Run(calls), c) <==> Admissible(History(calls), c)
  {
    hide Meant, Accepts, Admissible, Run, History;
    RunMeant(calls);
    StepMeant(Run(calls), History(calls), c);
  }

  /** And what is reported of the session is what the accepted calls said. */
  lemma ReportedIs(calls: seq<Call>)
    ensures var (t, h) := (Run(calls), History(calls));
            && (t.session.Some? <==> StartedIn(h).Some?)
            && (t.session.Some? ==>
                  var s := t.session.value;
                  && StartedIn(h) == Some((s.id, s.startedAt))
                  && s.checkpoint == CheckpointIn(h) && s.recursions == RecursionsIn(h)
                  && s.latency == LatencyIn(h) && s.error == ErrorIn(h) && s.exactPcm == ProofIn(h))
  {
    hide Run, History;
    RunMeant(calls);
  }

  /** A start that is refused names what is missing. */
  lemma StartRefused(calls: seq<Call>, p: Preconditions, at: nat, id: Uuid)
    ensures var (h, e) := (History(calls), Start(Run(calls), p, at, id).error);
            var free := StartedIn(h).None? || Over(CheckpointIn(h));
            && (e == Some(AlreadyRunning) <==> !free)
            && (e == Some(HeadphonesRequired) <==> free && !p.headphones)
            && (e == Some(RoundTripError.ProviderUnavailable) <==>
                  free && p.headphones && !(p.outgoingReady && p.incomingReady))
            && (e == Some(VirtualGraphUnavailable) <==>
                  free && p.headphones && p.outgoingReady && p.incomingReady && !p.graphReady)
  {
    hide Run, History;
    RunMeant(calls);
  }
}
