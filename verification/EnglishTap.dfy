/** The translated speech tapped for the round trip: collected, renumbered, and written back
    frame by frame while evidence is gathered that nothing changed on the way. */
module EnglishTap {
  import opened Wire
  import opened DirectionSessionModel
  import opened ExactPcm

  /** The captured frames, numbered anew from `first`. */
  function Renumbered(events: seq<CaptureEvent>, first: nat): seq<PcmFrame> {
    if events == [] then []
    else
      match events[0]
      case SpeechStarted(_, _, _) => Renumbered(events[1..], first)
      case CaptureFrame(_, _, frame, _) => [frame.(sequence := first)] + Renumbered(events[1..], first + 1)
  }

  predicate Numbered(frames: seq<PcmFrame>) {
    forall i :: 0 <= i < |frames| ==> frames[i].sequence == i
  }

  /** Whether a segment is under way after the events. */
  function ActiveAfter(events: seq<CaptureEvent>, active: bool): bool {
    if events == [] then active
    else
      match events[|events| - 1]
      case SpeechStarted(_, _, _) => true
      case CaptureFrame(_, _, _, end) => if end then false else ActiveAfter(events[..|events| - 1], active)
  }

  lemma {:induction false} RenumberedMore(a: seq<CaptureEvent>, b: seq<CaptureEvent>, first: nat)
    ensures Renumbered(a + b, first) == Renumbered(a, first) + Renumbered(b, first + |Renumbered(a, first)|)
  {
    if a == [] {
      assert a + b == b;
    } else {
      assert (a + b)[1..] == a[1..] + b;
      RenumberedMore(a[1..], b, if a[0].CaptureFrame? then first + 1 else first);
    }
  }

  lemma {:induction false} RenumberedAt(events: seq<CaptureEvent>, first: nat, i: nat)
    requires i < |Renumbered(events, first)|
    ensures Renumbered(events, first)[i].sequence == first + i
  {
    if events[0].SpeechStarted? {
      RenumberedAt(events[1..], first, i);
    } else if i > 0 {
      RenumberedAt(events[1..], first + 1, i - 1);
    }
  }

  lemma {:induction false} ActiveMore(a: seq<CaptureEvent>, b: seq<CaptureEvent>, active: bool)
    ensures ActiveAfter(a + b, active) == ActiveAfter(b, ActiveAfter(a, active))
  {
    if b == [] {
      assert a + b == a;
    } else {
      var n := |b| - 1;
      assert (a + b)[..|a + b| - 1] == a + b[..n];
      ActiveMore(a, b[..n], active);
    }
  }

  // ---- When the collector is complete ----

  const TAP_DRAIN_FRAMES: nat := 20

  datatype TapCall =
    | Events(events: seq<CaptureEvent>)
    | Terminal
    | DrainFrame

  /** All events the collector was given. */
  function Heard(calls: seq<TapCall>): seq<CaptureEvent> {
    if calls == [] then []
    else
      var (earlier, c) := (calls[..|calls| - 1], calls[|calls| - 1]);
      Heard(earlier) + if c.Events? then c.events else []
  }

  predicate Over(calls: seq<TapCall>) {
    exists i :: 0 <= i < |calls| && calls[i].Terminal?
  }

  /** The frames drained once the end was seen. */
  function Drained(calls: seq<TapCall>): nat {
    if calls == [] then 0
    else
      var (earlier, c) := (calls[..|calls| - 1], calls[|calls| - 1]);
      Drained(earlier) + if c.DrainFrame? && Over(earlier) then 1 else 0
  }

  function DrainFrames(calls: seq<TapCall>): nat {
    if calls == [] then 0
    else DrainFrames(calls[..|calls| - 1]) + if calls[|calls| - 1].DrainFrame? then 1 else 0
  }

  predicate Ends(e: CaptureEvent) {
    e.CaptureFrame? && e.endOfUtterance
  }

  predicate EndsLater(events: seq<CaptureEvent>, i: nat) {
    exists j :: i < j < |events| && Ends(events[j])
  }

  /** Every segment that began has ended. */
  ghost predicate AllEnded(events: seq<CaptureEvent>) {
    forall i :: 0 <= i < |events| && events[i].SpeechStarted? ==> EndsLater(events, i)
  }

  lemma {:induction false} ActiveIff(events: seq<CaptureEvent>)
    ensures ActiveAfter(events, false) <==> !AllEnded(events)
  {
    if events != [] {
      var (n, e) := (|events| - 1, events[|events| - 1]);
      var earlier := events[..n];
      ActiveIff(earlier);
      if e.SpeechStarted? {
        assert !EndsLater(events, n);
      } else if Ends(e) {
        forall i | 0 <= i < |events| && events[i].SpeechStarted? ensures EndsLater(events, i) {
          assert Ends(events[n]);
        }
      } else {
        forall i | 0 <= i < n ensures EndsLater(events, i) <==> EndsLater(earlier, i) {
          assert forall j :: i < j < n ==> earlier[j] == events[j];
        }
        assert forall i :: 0 <= i < n ==> earlier[i] == events[i];
      }
    }
  }

  /** The collector counts the frames after the first end it saw. */
  lemma {:induction false} DrainedSince(calls: seq<TapCall>, k: nat)
    requires k < |calls| && calls[k].Terminal? && !Over(calls[..k])
    ensures Drained(calls) == DrainFrames(calls[k + 1..])
  {
    var earlier := calls[..|calls| - 1];
    if k == |calls| - 1 {
      NoneDrained(earlier);
      assert calls[k + 1..] == [];
    } else {
      assert earlier[k].Terminal? && earlier[..k] == calls[..k];
      DrainedSince(earlier, k);
      var since := calls[k + 1..];
      assert since[..|since| - 1] == earlier[k + 1..] && since[|since| - 1] == calls[|calls| - 1];
    }
  }

  lemma {:induction false} NoneDrained(calls: seq<TapCall>)
    requires !Over(calls)
    ensures Drained(calls) == 0
  {
    if calls != [] {
      var earlier := calls[..|calls| - 1];
      assert forall i :: 0 <= i < |earlier| ==> earlier[i] == calls[i];
      NoneDrained(earlier);
    }
  }

  lemma {:induction false} FirstOver(calls: seq<TapCall>) returns (k: nat)
    requires Over(calls)
    ensures k < |calls| && calls[k].Terminal? && !Over(calls[..k])
    ensures forall i :: 0 <= i < k ==> !calls[i].Terminal?
  {
    k := |calls| - 1;
    var earlier := calls[..k];
    if Over(earlier) {
      k := FirstOver(earlier);
      assert earlier[..k] == calls[..k];
    } else {
      forall i | 0 <= i < k ensures !calls[i].Terminal? {
        assert earlier[i] == calls[i];
      }
    }
  }

  lemma NoneHeard(events: seq<CaptureEvent>, first: nat, active: bool)
    ensures Renumbered(events[..0], first) == [] && ActiveAfter(events[..0], active) == active
  {}

  lemma OneMore(events: seq<CaptureEvent>, i: nat, first: nat, active: bool)
    requires i < |events|
    ensures var (sofar, e) := (Renumbered(events[..i], first), events[i]);
            && Renumbered(events[..i + 1], first) ==
                 sofar + (if e.CaptureFrame? then [e.frame.(sequence := first + |sofar|)] else [])
            && ActiveAfter(events[..i + 1], active) ==
                 (e.SpeechStarted? || (!e.endOfUtterance && ActiveAfter(events[..i], active)))
  {
    assert events[..i + 1] == events[..i] + [events[i]] && events[..i + 1][..i] == events[..i];
    RenumberedMore(events[..i], [events[i]], first);
    assert [events[i]][1..] == [];
  }

  lemma HeardMore(calls: seq<TapCall>, events: seq<CaptureEvent>)
    ensures var (more, frames) := (calls + [Events(events)], Renumbered(Heard(calls), 0));
            && Renumbered(Heard(more), 0) == frames + Renumbered(events, |frames|)
            && ActiveAfter(Heard(more), false) == ActiveAfter(events, ActiveAfter(Heard(calls), false))
            && Over(more) == Over(calls) && Drained(more) == Drained(calls)
            && Numbered(Renumbered(Heard(more), 0))
  {
    var more := calls + [Events(events)];
    assert more[..|calls|] == calls;
    RenumberedMore(Heard(calls), events, 0);
    ActiveMore(Heard(calls), events, false);
    OverMore(calls, Events(events));
    hide Renumbered;
    forall i | 0 <= i < |Renumbered(Heard(more), 0)| ensures Renumbered(Heard(more), 0)[i].sequence == i {
      RenumberedAt(Heard(more), 0, i);
    }
  }

  class EnglishTapCollector {
    var frames: seq<PcmFrame>
    var terminalObserved: bool
    var drainFrames: nat
    var segmentActive: bool
    ghost var calls: seq<TapCall>

    ghost predicate Valid()
      reads this
    {
      && frames == Renumbered(Heard(calls), 0) && segmentActive == ActiveAfter(Heard(calls), false)
      && terminalObserved == Over(calls) && drainFrames == Drained(calls)
    }

    constructor ()
      ensures Valid() && calls == []
    {
      frames, terminalObserved, drainFrames, segmentActive := [], false, 0, false;
      calls := [];
    }

    method RecordEvents(events: seq<CaptureEvent>)
      requires Valid()
      modifies this
      ensures Valid() && calls == old(calls) + [Events(events)]
      ensures frames == old(frames) + Renumbered(events, |old(frames)|) && Numbered(frames)
    {
      hide Renumbered, ActiveAfter, Heard, Over, Drained;
      NoneHeard(events, |frames|, segmentActive);
      for i := 0 to |events|
        invariant unchanged(this`terminalObserved, this`drainFrames, this`calls)
        invariant frames == old(frames) + Renumbered(events[..i], |old(frames)|)
        invariant segmentActive == ActiveAfter(events[..i], old(segmentActive))
      {
        OneMore(events, i, |old(frames)|, old(segmentActive));
        match events[i] {
          case SpeechStarted(_, _, _) =>
            segmentActive := true;
          case CaptureFrame(_, _, frame, end) =>
            frames := frames + [frame.(sequence := |frames|)];
            if end {
              segmentActive := false;
            }
        }
      }
      assert events[..|events|] == events;
      calls := calls + [Events(events)];
      HeardMore(old(calls), events);
    }

    method ObserveTerminal()
      requires Valid()
      modifies this`terminalObserved, this`calls
      ensures Valid() && calls == old(calls) + [Terminal]
    {
      terminalObserved := true;
      calls := calls + [Terminal];
      assert calls[..|calls| - 1] == old(calls);
      assert Heard(calls) == Heard(old(calls));
      OverMore(old(calls), Terminal);
    }

    method RecordDrainFrame()
      requires Valid()
      modifies this`drainFrames, this`calls
      ensures Valid() && calls == old(calls) + [DrainFrame]
    {
      if terminalObserved {
        drainFrames := drainFrames + 1;
      }
      calls := calls + [DrainFrame];
      assert calls[..|calls| - 1] == old(calls);
      assert Heard(calls) == Heard(old(calls));
      OverMore(old(calls), DrainFrame);
    }

    /** Nothing more will come: twenty frames were drained since the end was first seen, and
        every segment that began has ended. */
    method IsComplete() returns (complete: bool)
      requires Valid()
      ensures complete <==>
                && AllEnded(Heard(calls))
                && exists k :: && 0 <= k < |calls| && calls[k].Terminal?
                               && DrainFrames(calls[k + 1..]) >= 20
    {
      complete := terminalObserved && drainFrames >= TAP_DRAIN_FRAMES && !segmentActive;
      ActiveIff(Heard(calls));
      if Over(calls) {
        var first := FirstOver(calls);
        DrainedSince(calls, first);
        forall k | 0 <= k < |calls| && calls[k].Terminal?
          ensures DrainFrames(calls[k + 1..]) <= DrainFrames(calls[first + 1..])
        {
          FewerLater(calls, first, k);
        }
      }
    }
  }

  lemma OverMore(calls: seq<TapCall>, c: TapCall)
    ensures Over(calls + [c]) <==> Over(calls) || c.Terminal?
  {
    var more := calls + [c];
    assert forall i :: 0 <= i < |calls| ==> more[i] == calls[i];
    assert more[|calls|] == c;
  }

  lemma {:induction false} FewerLater(calls: seq<TapCall>, i: nat, k: nat)
    requires i <= k < |calls|
    ensures DrainFrames(calls[k + 1..]) <= DrainFrames(calls[i + 1..])
    decreases |calls|
  {
    if k + 1 < |calls| {
      var earlier := calls[..|calls| - 1];
      FewerLater(earlier, i, k);
      assert calls[k + 1..][..|calls| - k - 2] == earlier[k + 1..];
      assert calls[i + 1..][..|calls| - i - 2] == earlier[i + 1..];
    } else {
      assert calls[k + 1..] == [];
    }
  }

  /** What the writer says it wrote. */
  datatype Receipt = Receipt(sequence: nat, format: PcmFormat, bytesWritten: nat, digest: seq<Byte>)

  predicate Echoes(r: Receipt, frame: PcmFrame) {
    r.sequence == frame.sequence && r.format == frame.format && r.bytesWritten == |frame.pcm| && r.digest == frame.pcm
  }

  method RecordWriteReceipt(evidence: Evidence, frame: PcmFrame, receipt: Receipt) returns (ok: bool)
    requires evidence.Valid()
    modifies evidence
    ensures evidence.Valid()
    ensures if Echoes(receipt, frame)
            then && evidence.calls == old(evidence.calls) + [Reinject(frame)]
                 && (ok <==> frame.format == evidence.format
                             && frame.sequence == |Taken(evidence.format, Reinjected(old(evidence.calls)))|)
            else !ok && evidence.calls == old(evidence.calls)
  {
    if !Echoes(receipt, frame) {
      return false;
    }
    var error := evidence.Reinject(frame);
    ok := error.None?;
  }

  /** So far, exactly these frames were captured and reinjected. */
  ghost predicate Mirrors(evidence: Evidence, done: seq<PcmFrame>)
    reads evidence
  {
    && evidence.Valid() && evidence.format == PROVIDER_FORMAT
    && Captured(evidence.calls) == done && Reinjected(evidence.calls) == done
    && forall c <- evidence.calls :: WellFormed(c.frame)
  }

  method WriteOne(evidence: Evidence, frame: PcmFrame, receipt: Receipt, ghost done: seq<PcmFrame>) returns (ok: bool)
    requires Mirrors(evidence, done) && InLine(PROVIDER_FORMAT, done)
    requires frame.format == PROVIDER_FORMAT && frame.sequence == |done| && WellFormed(frame)
    modifies evidence
    ensures ok <==> Echoes(receipt, frame)
    ensures ok ==> Mirrors(evidence, done + [frame])
  {
    hide Taken, InLine, WellFormed, Echoes, Captured, Reinjected, Evidence.Valid;
    TakenInLine(PROVIDER_FORMAT, done);
    CallsGrow(evidence.calls, Call.Capture(frame));
    var error := evidence.Capture(frame);
    if error.Some? {
      assert false;
    }
    CallsGrow(evidence.calls, Call.Reinject(frame));
    ok := RecordWriteReceipt(evidence, frame, receipt);
  }

  /** The proof speaks of these frames, each of which the writer echoed. */
  ghost predicate Attests(proof: Proof, frames: seq<PcmFrame>, receipts: seq<Receipt>) {
    && Numbered(frames) && |receipts| == |frames|
    && (forall f <- frames :: f.format == PROVIDER_FORMAT && WellFormed(f))
    && (forall i :: 0 <= i < |frames| ==> Echoes(receipts[i], frames[i]))
    && (proof.exact <==> frames != []) && proof.capturedCount == |frames|
    && proof.captured == proof.reinjected == Transcript(frames)
  }

  /** The tapped frames written back one by one. It succeeds if and only if every receipt
      echoes its frame, and then the proof is exact as soon as there is anything to prove:
      frames numbered by the collector are never refused for their sequence. */
  method WriteBack(frames: seq<PcmFrame>, receipts: seq<Receipt>) returns (proof: Option<Proof>)
    requires Numbered(frames) && |receipts| == |frames|
    requires forall f <- frames :: f.format == PROVIDER_FORMAT && WellFormed(f)
    ensures proof.Some? <==> forall i :: 0 <= i < |frames| ==> Echoes(receipts[i], frames[i])
    ensures proof.Some? ==> Attests(proof.value, frames, receipts)
  {
    hide Taken, InLine, WellFormed, Echoes, Captured, Reinjected, Evidence.Valid;
    var evidence := new Evidence(PROVIDER_FORMAT);
    NothingYet();
    for i := 0 to |frames|
      invariant fresh(evidence) && Mirrors(evidence, frames[..i])
      invariant forall k :: 0 <= k < i ==> Echoes(receipts[k], frames[k])
    {
      assert frames[i] in frames;
      NumberedInLine(frames[..i]);
      assert frames[..i + 1] == frames[..i] + [frames[i]];
      var ok := WriteOne(evidence, frames[i], receipts[i], frames[..i]);
      if !ok {
        return None;
      }
    }
    assert frames[..|frames|] == frames;
    NumberedInLine(frames);
    TakenInLine(PROVIDER_FORMAT, frames);
    var p := evidence.Prove();
    proof := Some(p);
  }

  lemma NothingYet()
    ensures Captured([]) == [] && Reinjected([]) == []
  {}

  lemma NumberedInLine(frames: seq<PcmFrame>)
    requires Numbered(frames) && forall f <- frames :: f.format == PROVIDER_FORMAT
    ensures InLine(PROVIDER_FORMAT, frames)
  {}

  /** A proof identifies the frames it speaks of, up to the moments they were captured. */
  lemma AttestsOnce(proof: Proof, a: seq<PcmFrame>, ra: seq<Receipt>, b: seq<PcmFrame>, rb: seq<Receipt>)
    requires Attests(proof, a, ra) && Attests(proof, b, rb) && |a| <= TWO_TO_64 && |b| <= TWO_TO_64
    ensures Sound(a) == Sound(b)
  {
    hide WellFormed, Transcript, Sound;
    FramingInjective(PROVIDER_FORMAT, a, b);
  }
}
