/** The proof that what was reinjected is what was captured, byte for byte. The digest is
    modelled by the bytes it absorbs. */
module ExactPcm {
  import opened Wire
  import opened DirectionSessionModel

  datatype EvidenceError = FormatMismatch | SequenceMismatch

  datatype Proof = Proof(
    capturedCount: nat,
    reinjectedCount: nat,
    firstSequence: Option<nat>,
    lastSequence: Option<nat>,
    captured: seq<Byte>,
    reinjected: seq<Byte>,
    formatMatches: bool,
    sequenceMonotonic: bool,
    exact: bool)

  datatype Call = Capture(frame: PcmFrame) | Reinject(frame: PcmFrame)

  /** A frame always has as many bytes as its format asks for. */
  predicate WellFormed(frame: PcmFrame) {
    |frame.pcm| == frame.format.FrameBytes()
  }

  /** The `k` lowest bytes of a number, lowest first. */
  function LeBytes(n: nat, k: nat): (r: seq<Byte>)
    ensures |r| == k
  {
    if k == 0 then [] else [(n % 256) as Byte] + LeBytes(n / 256, k - 1)
  }

  function Absorbed(frame: PcmFrame): seq<Byte> {
    LeBytes(frame.sequence, 8) + frame.pcm
  }

  function Transcript(frames: seq<PcmFrame>): seq<Byte> {
    if frames == [] then [] else Transcript(frames[..|frames| - 1]) + Absorbed(frames[|frames| - 1])
  }

  // ---- What was accepted, told from the calls alone ----

  /** The frames of one side that are in the format and carry the next number. */
  function Taken(format: PcmFormat, frames: seq<PcmFrame>): (r: seq<PcmFrame>)
    ensures |r| <= |frames|
  {
    if frames == [] then []
    else
      var earlier := Taken(format, frames[..|frames| - 1]);
      var frame := frames[|frames| - 1];
      if frame.format == format && frame.sequence == |earlier| then earlier + [frame] else earlier
  }

  function Captured(calls: seq<Call>): seq<PcmFrame> {
    if calls == [] then []
    else
      var c := calls[|calls| - 1];
      Captured(calls[..|calls| - 1]) + if c.Capture? then [c.frame] else []
  }

  function Reinjected(calls: seq<Call>): seq<PcmFrame> {
    if calls == [] then []
    else
      var c := calls[|calls| - 1];
      Reinjected(calls[..|calls| - 1]) + if c.Reinject? then [c.frame] else []
  }

  /** In the format, and numbered 0, 1, 2, ... */
  ghost predicate InLine(format: PcmFormat, frames: seq<PcmFrame>) {
    forall i :: 0 <= i < |frames| ==> frames[i].format == format && frames[i].sequence == i
  }

  /** The evidence as it is kept: counts, digests and two flags, updated call by call. */
  class Evidence {
    const format: PcmFormat
    var capturedCount: nat
    var reinjectedCount: nat
    var capturedHash: seq<Byte>
    var reinjectedHash: seq<Byte>
    var formatMatches: bool
    var sequenceMonotonic: bool
    ghost var calls: seq<Call>

    /** The counts and digests are those of the frames taken, and the flags tell whether any
        was refused. */
    ghost predicate Valid()
      reads this
    {
      var (captured, reinjected) := (Captured(calls), Reinjected(calls));
      && capturedCount == |Taken(format, captured)| && capturedHash == Transcript(Taken(format, captured))
      && reinjectedCount == |Taken(format, reinjected)| && reinjectedHash == Transcript(Taken(format, reinjected))
      && (formatMatches && sequenceMonotonic <==> InLine(format, captured) && InLine(format, reinjected))
    }

    constructor (format: PcmFormat)
      ensures Valid() && calls == [] && this.format == format
    {
      this.format := format;
      capturedCount, reinjectedCount := 0, 0;
      capturedHash, reinjectedHash := [], [];
      formatMatches, sequenceMonotonic := true, true;
      calls := [];
    }

    /** The flag that tells why a frame is refused. */
    method Judge(frame: PcmFrame, count: nat) returns (error: Option<EvidenceError>)
      modifies this`formatMatches, this`sequenceMonotonic
      ensures error == if frame.format != format then Some(FormatMismatch)
                       else if frame.sequence != count then Some(SequenceMismatch) else None
      ensures formatMatches == (old(formatMatches) && error != Some(FormatMismatch))
      ensures sequenceMonotonic == (old(sequenceMonotonic) && error != Some(SequenceMismatch))
    {
      if frame.format != format {
        formatMatches := false;
        return Some(FormatMismatch);
      }
      if frame.sequence != count {
        sequenceMonotonic := false;
        return Some(SequenceMismatch);
      }
      return None;
    }

    method Capture(frame: PcmFrame) returns (error: Option<EvidenceError>)
      requires Valid()
      modifies this
      ensures Valid() && calls == old(calls) + [Call.Capture(frame)]
      ensures error.None? <==> frame.format == format && frame.sequence == |Taken(format, Captured(old(calls)))|
    {
      hide Taken, InLine, Captured, Reinjected, Absorbed, Transcript;
      ghost var (captured, reinjected) := (Captured(calls), Reinjected(calls));
      error := Judge(frame, capturedCount);
      calls := calls + [Call.Capture(frame)];
      CallsGrow(old(calls), Call.Capture(frame));
      TakenGrows(format, captured, frame);
      InLineGrows(format, captured, frame);
      TakenInLine(format, captured);
      if error.None? {
        capturedHash := capturedHash + Absorbed(frame);
        capturedCount := capturedCount + 1;
      }
    }

    method Reinject(frame: PcmFrame) returns (error: Option<EvidenceError>)
      requires Valid()
      modifies this
      ensures Valid() && calls == old(calls) + [Call.Reinject(frame)]
      ensures error.None? <==> frame.format == format && frame.sequence == |Taken(format, Reinjected(old(calls)))|
    {
      hide Taken, InLine, Captured, Reinjected, Absorbed, Transcript;
      ghost var (captured, reinjected) := (Captured(calls), Reinjected(calls));
      error := Judge(frame, reinjectedCount);
      calls := calls + [Call.Reinject(frame)];
      CallsGrow(old(calls), Call.Reinject(frame));
      TakenGrows(format, reinjected, frame);
      InLineGrows(format, reinjected, frame);
      TakenInLine(format, reinjected);
      if error.None? {
        reinjectedHash := reinjectedHash + Absorbed(frame);
        reinjectedCount := reinjectedCount + 1;
      }
    }

    /** The proof is exact if and only if no frame was refused on either side, something was
        captured, and the same frames were reinjected. */
    method Prove() returns (proof: Proof)
      requires Valid()
      requires forall c <- calls :: WellFormed(c.frame)
      ensures proof.exact <==> ExactlyAlike(format, calls)
      ensures proof.capturedCount == |Taken(format, Captured(calls))|
      ensures proof.lastSequence == LastOf(proof.capturedCount)
      ensures proof.captured == Transcript(Taken(format, Captured(calls)))
      ensures proof.reinjected == Transcript(Taken(format, Reinjected(calls)))
    {
      proof := Proof(capturedCount, reinjectedCount, if capturedCount > 0 then Some(0) else None, LastOf(capturedCount),
                     capturedHash, reinjectedHash, formatMatches, sequenceMonotonic,
                     && capturedCount > 0 && capturedCount == reinjectedCount && formatMatches && sequenceMonotonic
                     && capturedHash == reinjectedHash);
      ExactIff(format, calls);
    }
  }

  /** What is heard: a frame without the moment it was captured. */
  function Sound(frames: seq<PcmFrame>): seq<(nat, Pcm)> {
    seq(|frames|, i requires 0 <= i < |frames| => (frames[i].sequence, frames[i].pcm))
  }

  ghost predicate ExactlyAlike(format: PcmFormat, calls: seq<Call>) {
    var (captured, reinjected) := (Captured(calls), Reinjected(calls));
    && captured != [] && InLine(format, captured) && InLine(format, reinjected)
    && Sound(captured) == Sound(reinjected)
  }

  lemma CallsGrow(calls: seq<Call>, c: Call)
    ensures Captured(calls + [c]) == if c.Capture? then Captured(calls) + [c.frame] else Captured(calls)
    ensures Reinjected(calls + [c]) == if c.Reinject? then Reinjected(calls) + [c.frame] else Reinjected(calls)
  {
    assert (calls + [c])[..|calls|] == calls;
  }

  lemma TakenGrows(format: PcmFormat, frames: seq<PcmFrame>, frame: PcmFrame)
    ensures var taken := Taken(format, frames);
            && Taken(format, frames + [frame]) ==
               (if frame.format == format && frame.sequence == |taken| then taken + [frame] else taken)
            && Transcript(taken + [frame]) == Transcript(taken) + Absorbed(frame)
  {
    hide Absorbed;
    var taken := Taken(format, frames);
    assert (frames + [frame])[..|frames|] == frames;
    assert (taken + [frame])[..|taken|] == taken;
  }

  lemma InLineGrows(format: PcmFormat, frames: seq<PcmFrame>, frame: PcmFrame)
    ensures InLine(format, frames + [frame]) <==>
              InLine(format, frames) && frame.format == format && frame.sequence == |frames|
  {
    var more := frames + [frame];
    assert more[|frames|] == frame;
    forall i | 0 <= i < |frames| ensures more[i] == frames[i] {}
  }

  /** Frames in line are all taken; if one is not, fewer are. */
  lemma {:induction false} TakenInLine(format: PcmFormat, frames: seq<PcmFrame>)
    ensures InLine(format, frames) ==> Taken(format, frames) == frames
    ensures !InLine(format, frames) ==> |Taken(format, frames)| < |frames|
  {
    if frames != [] {
      var earlier := frames[..|frames| - 1];
      TakenInLine(format, earlier);
      InLineGrows(format, earlier, frames[|frames| - 1]);
      assert earlier + [frames[|frames| - 1]] == frames;
    }
  }

  lemma {:induction false} CallsWellFormed(calls: seq<Call>)
    requires forall c <- calls :: WellFormed(c.frame)
    ensures forall f <- Captured(calls) :: WellFormed(f)
    ensures forall f <- Reinjected(calls) :: WellFormed(f)
  {
    hide WellFormed;
    if calls != [] {
      CallsWellFormed(calls[..|calls| - 1]);
      assert calls[|calls| - 1] in calls;
    }
  }

  /** Frames in line, as many on both sides. */
  lemma {:induction false} InLineFraming(format: PcmFormat, a: seq<PcmFrame>, b: seq<PcmFrame>)
    requires InLine(format, a) && InLine(format, b) && |a| == |b|
    requires (forall f <- a :: WellFormed(f)) && (forall f <- b :: WellFormed(f))
    ensures |Transcript(a)| == |Transcript(b)|
    ensures Transcript(a) == Transcript(b) <==> Sound(a) == Sound(b)
    decreases |a|
  {
    hide PcmFormat.FrameBytes, LeBytes, Sound;
    var n := |a|;
    if n > 0 {
      var (a', x, b', y) := (a[..n - 1], a[n - 1], b[..n - 1], b[n - 1]);
      InLineFraming(format, a', b');
      assert x in a && y in b;
      SoundGrows(a);
      SoundGrows(b);
      AppendSame(Sound(a'), Sound(b'), [(x.sequence, x.pcm)], [(y.sequence, y.pcm)]);
      AppendSame(Transcript(a'), Transcript(b'), Absorbed(x), Absorbed(y));
      AppendSame(LeBytes(x.sequence, 8), LeBytes(y.sequence, 8), x.pcm, y.pcm);
    }
  }

  lemma SoundGrows(frames: seq<PcmFrame>)
    requires frames != []
    ensures Sound(frames) == Sound(frames[..|frames| - 1]) + [(frames[|frames| - 1].sequence, frames[|frames| - 1].pcm)]
    ensures |Sound(frames[..|frames| - 1])| == |frames| - 1
  {}

  lemma AppendSame<T>(a: seq<T>, b: seq<T>, x: seq<T>, y: seq<T>)
    requires |a| == |b|
    ensures a + x == b + y <==> a == b && x == y
  {
    if a + x == b + y {
      assert a == (a + x)[..|a|] && b == (b + y)[..|a|];
      assert x == (a + x)[|a|..] && y == (b + y)[|a|..];
    }
  }

  lemma ExactIff(format: PcmFormat, calls: seq<Call>)
    requires forall c <- calls :: WellFormed(c.frame)
    ensures var (captured, reinjected) := (Captured(calls), Reinjected(calls));
            ExactlyAlike(format, calls) <==>
              && |Taken(format, captured)| > 0 && |Taken(format, captured)| == |Taken(format, reinjected)|
              && InLine(format, captured) && InLine(format, reinjected)
              && Transcript(Taken(format, captured)) == Transcript(Taken(format, reinjected))
  {
    hide WellFormed, Transcript;
    var (captured, reinjected) := (Captured(calls), Reinjected(calls));
    CallsWellFormed(calls);
    TakenInLine(format, captured);
    TakenInLine(format, reinjected);
    if InLine(format, captured) && InLine(format, reinjected) && |captured| == |reinjected| {
      InLineFraming(format, captured, reinjected);
    }
    assert |Sound(captured)| == |captured| && |Sound(reinjected)| == |reinjected|;
  }

  // ---- Any frames of one format ----

  const TWO_TO_64: nat := 0x1_0000_0000_0000_0000

  /** Frames of one format, however they are numbered. */
  ghost predicate OneFormat(format: PcmFormat, frames: seq<PcmFrame>) {
    forall i :: 0 <= i < |frames| ==>
      frames[i].format == format && WellFormed(frames[i]) && frames[i].sequence < TWO_TO_64
  }

  function Pow256(k: nat): nat {
    if k == 0 then 1 else 256 * Pow256(k - 1)
  }

  lemma {:induction false} LeBytesInjective(m: nat, n: nat, k: nat)
    requires m < Pow256(k) && n < Pow256(k) && LeBytes(m, k) == LeBytes(n, k)
    ensures m == n
    decreases k
  {
    if k > 0 {
      var (a, b) := (LeBytes(m, k), LeBytes(n, k));
      assert a[0] == b[0] && a[1..] == LeBytes(m / 256, k - 1) && b[1..] == LeBytes(n / 256, k - 1);
      LeBytesInjective(m / 256, n / 256, k - 1);
    }
  }

  lemma EightBytes()
    ensures Pow256(8) == TWO_TO_64
  {
    assert Pow256(2) == 0x1_0000;
    assert Pow256(4) == 0x1_0000_0000;
    assert Pow256(6) == 0x1_0000_0000_0000;
  }

  lemma EndSame<T>(a: seq<T>, b: seq<T>, x: seq<T>, y: seq<T>)
    requires |x| == |y|
    ensures a + x == b + y <==> a == b && x == y
  {
    if a + x == b + y {
      assert |a| == |b|;
      AppendSame(a, b, x, y);
    }
  }

  /** One frame's bytes tell its number and its audio. */
  lemma AbsorbedSame(x: PcmFrame, y: PcmFrame)
    requires x.format == y.format && WellFormed(x) && WellFormed(y) && x.sequence < TWO_TO_64 && y.sequence < TWO_TO_64
    ensures |Absorbed(x)| == |Absorbed(y)|
    ensures Absorbed(x) == Absorbed(y) <==> x.sequence == y.sequence && x.pcm == y.pcm
  {
    hide PcmFormat.FrameBytes;
    AppendSame(LeBytes(x.sequence, 8), LeBytes(y.sequence, 8), x.pcm, y.pcm);
    if Absorbed(x) == Absorbed(y) {
      EightBytes();
      LeBytesInjective(x.sequence, y.sequence, 8);
    }
  }

  /** Frames of one format are of one size, so the bytes absorbed can be cut back into frames in
      one way only: equal digests mean as many frames, with the same numbers and the same audio. */
  lemma {:induction false} FramingInjective(format: PcmFormat, a: seq<PcmFrame>, b: seq<PcmFrame>)
    requires OneFormat(format, a) && OneFormat(format, b)
    ensures Transcript(a) == Transcript(b) <==> Sound(a) == Sound(b)
    decreases |a|
  {
    hide Absorbed, WellFormed, Sound;
    SoundLength(a);
    SoundLength(b);
    if a != [] && b != [] {
      var (a', x, b', y) := (a[..|a| - 1], a[|a| - 1], b[..|b| - 1], b[|b| - 1]);
      FramingInjective(format, a', b');
      AbsorbedSame(x, y);
      SoundGrows(a);
      SoundGrows(b);
      EndSame(Sound(a'), Sound(b'), [(x.sequence, x.pcm)], [(y.sequence, y.pcm)]);
      EndSame(Transcript(a'), Transcript(b'), Absorbed(x), Absorbed(y));
      assert [(x.sequence, x.pcm)] == [(y.sequence, y.pcm)] <==> x.sequence == y.sequence && x.pcm == y.pcm by {
        assert [(x.sequence, x.pcm)][0] == (x.sequence, x.pcm) && [(y.sequence, y.pcm)][0] == (y.sequence, y.pcm);
      }
    } else {
      SomeBytes(a);
      SomeBytes(b);
    }
  }

  lemma SoundLength(frames: seq<PcmFrame>)
    ensures |Sound(frames)| == |frames|
  {}

  lemma SomeBytes(frames: seq<PcmFrame>)
    ensures Transcript(frames) == [] <==> frames == []
  {
    hide LeBytes;
  }
}
