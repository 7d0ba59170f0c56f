/** Whatever the voice pattern, the segmenter's output is a sequence of contiguous blocks of
    its input, in order and apart, each announced once and ended once. Where the blocks begin
    and end is fixed by the voice pattern alone. */
module SegmenterRuns {
  import opened Wire
  import opened DirectionSessionModel
  import opened SegmenterModel

  /** A frame is heeded if it is 16 kHz mono in 20 ms and the detector can tell whether it is voice;
      any other changes nothing. */
  lemma HeededIff(s: Segmenter, frame: PcmFrame, voice: Option<bool>, newId: Uuid)
    ensures var r := Process(s, frame, voice, newId);
            && (r.Heeded? <==> frame.format == PcmFormat(16_000, 1, true, 20) && voice.Some?)
            && (r == Refused(UnsupportedFormat) <==> frame.format != PcmFormat(16_000, 1, true, 20))
            && (r.Heeded? ==> r.heard == Hear(s, frame, voice.value, newId))
  {}

  /** One captured frame, whether it is voice, and the identifier to use should an utterance start with it. */
  datatype Input = Input(frame: PcmFrame, voice: bool, newId: Uuid)

  datatype Run = Run(segmenter: Segmenter, events: seq<CaptureEvent>)

  function Listen(stream: Uuid, asked: Limits, inputs: seq<Input>): Run {
    if inputs == [] then Run(Quiet(stream, asked), [])
    else
      var r := Listen(stream, asked, inputs[..|inputs| - 1]);
      var x := inputs[|inputs| - 1];
      var h := Hear(r.segmenter, x.frame, x.voice, x.newId);
      Run(h.segmenter, r.events + h.events)
  }

  /** The inputs from `lo` up to, and not including, `hi` are one utterance. */
  datatype Block = Block(lo: nat, hi: nat, utterance: Uuid)

  // ----- where blocks begin and end -----

  /** How many frames at the end of `inputs[lo..hi]` are silent. */
  function Silence(inputs: seq<Input>, lo: nat, hi: nat): (k: nat)
    requires lo <= hi <= |inputs|
    ensures k <= hi - lo
  {
    if lo < hi && !inputs[hi - 1].voice then Silence(inputs, lo, hi - 1) + 1 else 0
  }

  predicate PauseEnds(limits: Limits, inputs: seq<Input>, lo: nat, hi: nat)
    requires lo <= hi <= |inputs|
  {
    Silence(inputs, lo, hi) >= if hi - lo >= limits.minFrames then limits.adaptiveSilence else 15
  }

  /** An utterance that began at `lo` must end at `hi`: it is as long as allowed, or the pause
      at its end is as long as its length asks for. */
  predicate MustEnd(limits: Limits, inputs: seq<Input>, lo: nat, hi: nat)
    requires lo <= hi <= |inputs|
  {
    hi - lo >= limits.maxFrames || PauseEnds(limits, inputs, lo, hi)
  }

  ghost predicate AllVoice(inputs: seq<Input>, lo: nat, hi: nat)
    requires hi <= |inputs|
  {
    forall i :: lo <= i < hi ==> inputs[i].voice
  }

  /** Speech confirmed at `lo` that has no reason to end up to and including `hi`. */
  ghost predicate Unbroken(limits: Limits, inputs: seq<Input>, lo: nat, hi: nat)
    requires lo + limits.confirmation <= hi <= |inputs|
  {
    && AllVoice(inputs, lo, lo + limits.confirmation)
    && forall k :: lo + limits.confirmation <= k <= hi ==> !MustEnd(limits, inputs, lo, k)
  }

  /** An utterance cut at its greatest length during a pause that would not have ended it. */
  predicate CutInPause(limits: Limits, inputs: seq<Input>, b: Block)
    requires b.lo < b.hi <= |inputs|
  {
    !inputs[b.hi - 1].voice && !PauseEnds(limits, inputs, b.lo, b.hi)
  }

  /** After an end at `end`, speech counts again from `j` on: at once, or after a cut in a
      pause once a full pause has been heard. */
  ghost predicate Listening(inputs: seq<Input>, end: nat, cut: bool, j: nat)
    requires j <= |inputs|
  {
    !cut || exists p :: end <= p <= j && Silence(inputs, end, p) >= 15
  }

  ghost predicate Begins(limits: Limits, inputs: seq<Input>, end: nat, cut: bool, j: nat)
    requires j + limits.confirmation <= |inputs|
  {
    Listening(inputs, end, cut, j) && AllVoice(inputs, j, j + limits.confirmation)
  }

  /** No utterance begins between `end` and `lo`. */
  ghost predicate NoneBegins(limits: Limits, inputs: seq<Input>, end: nat, cut: bool, lo: nat)
    requires lo + limits.confirmation <= |inputs| + 1
  {
    forall j :: end <= j < lo ==> !Begins(limits, inputs, end, cut, j)
  }

  /** An utterance that begins at `lo` bears the identifier offered with the frame that confirms it. */
  predicate Named(limits: Limits, inputs: seq<Input>, lo: nat, u: Uuid)
    requires 0 < limits.confirmation && lo + limits.confirmation <= |inputs|
  {
    u == inputs[lo + limits.confirmation - 1].newId
  }

  /** The one block that the voice pattern allows next after `end`. */
  ghost predicate Due(limits: Limits, inputs: seq<Input>, end: nat, cut: bool, b: Block) {
    && end <= b.lo && 0 < limits.confirmation < b.hi - b.lo <= limits.maxFrames && b.hi <= |inputs|
    && Named(limits, inputs, b.lo, b.utterance)
    && NoneBegins(limits, inputs, end, cut, b.lo) && Begins(limits, inputs, end, cut, b.lo)
    && Unbroken(limits, inputs, b.lo, b.hi - 1) && MustEnd(limits, inputs, b.lo, b.hi)
  }

  ghost predicate AllDue(limits: Limits, inputs: seq<Input>, blocks: seq<Block>) {
    blocks == [] ||
    var (earlier, b) := (blocks[..|blocks| - 1], blocks[|blocks| - 1]);
    && AllDue(limits, inputs, earlier)
    && Due(limits, inputs, EndOf(earlier), Cut(limits, inputs, earlier), b)
  }

  function EndOf(blocks: seq<Block>): nat {
    if blocks == [] then 0 else blocks[|blocks| - 1].hi
  }

  predicate Cut(limits: Limits, inputs: seq<Input>, blocks: seq<Block>) {
    blocks != [] && var b := blocks[|blocks| - 1]; b.lo < b.hi <= |inputs| && CutInPause(limits, inputs, b)
  }

  // ----- what blocks look like on the wire -----

  function FramesAt(inputs: seq<Input>, lo: nat, hi: nat): (r: seq<PcmFrame>)
    requires lo <= hi <= |inputs|
    ensures |r| == hi - lo
  {
    seq(hi - lo, i requires 0 <= i < hi - lo => inputs[lo + i].frame)
  }

  /** How an utterance begins: announced with its first frame's capture time. */
  function Opening(stream: Uuid, inputs: seq<Input>, lo: nat, hi: nat, u: Uuid): seq<CaptureEvent>
    requires lo < hi <= |inputs|
  {
    [SpeechStarted(stream, u, inputs[lo].frame.captureNs)] + Carried(stream, u, FramesAt(inputs, lo, hi))
  }

  /** A whole utterance: the end flag is on its last frame and on no other. */
  function Rendered(stream: Uuid, inputs: seq<Input>, b: Block): seq<CaptureEvent>
    requires b.lo + 1 < b.hi <= |inputs|
  {
    Opening(stream, inputs, b.lo, b.hi - 1, b.utterance) +
    [CaptureFrame(stream, b.utterance, inputs[b.hi - 1].frame, true)]
  }

  ghost function RenderedAll(stream: Uuid, limits: Limits, inputs: seq<Input>, blocks: seq<Block>): seq<CaptureEvent>
    requires Sensible(limits) && AllDue(limits, inputs, blocks)
  {
    if blocks == [] then []
    else RenderedAll(stream, limits, inputs, blocks[..|blocks| - 1]) + Rendered(stream, inputs, blocks[|blocks| - 1])
  }

  // ----- where the segmenter stands -----

  /** Between utterances: the frames from `open` on are held unconfirmed speech. */
  ghost predicate Between(limits: Limits, inputs: seq<Input>, s: Segmenter, end: nat, cut: bool, open: nat) {
    var n := |inputs|;
    && end <= open <= n
    && s.trailing == [] && s.activeFrames == 0
    && s.pending == FramesAt(inputs, open, n) && n - open < limits.confirmation
    && AllVoice(inputs, open, n) && (open == end || !inputs[open - 1].voice || s.rearm.Some?)
    && (n + 1 >= limits.confirmation ==> NoneBegins(limits, inputs, end, cut, n + 1 - limits.confirmation))
    && match s.rearm
       case Some(quiet) =>
         cut && open == n && quiet == Silence(inputs, end, n) && !Listening(inputs, end, cut, n)
       case None =>
         Listening(inputs, end, cut, open)
  }

  /** Within an utterance that began at `open`: the silence at its end is held back. */
  ghost predicate Within(limits: Limits, inputs: seq<Input>, s: Segmenter, end: nat, cut: bool, open: nat) {
    var n := |inputs|;
    && s.pending == [] && s.rearm.None?
    && end <= open && 0 < limits.confirmation && open + limits.confirmation <= n
    && s.utterance.Some? && Named(limits, inputs, open, s.utterance.value)
    && NoneBegins(limits, inputs, end, cut, open) && Begins(limits, inputs, end, cut, open)
    && Unbroken(limits, inputs, open, n)
    && s.activeFrames == n - open
    && |s.trailing| == Silence(inputs, open, n) <= n - open - limits.confirmation
    && s.trailing == FramesAt(inputs, n - |s.trailing|, n)
  }

  /** What the segmenter holds is the tail of its input, and all it said is the blocks so far
      and the beginning of the open utterance. */
  ghost predicate Accounted(stream: Uuid, limits: Limits, inputs: seq<Input>, r: Run, blocks: seq<Block>, open: nat) {
    var (s, n) := (r.segmenter, |inputs|);
    && s.stream == stream && s.limits == limits && Sensible(limits)
    && AllDue(limits, inputs, blocks)
    && match s.utterance
       case None =>
         && Between(limits, inputs, s, EndOf(blocks), Cut(limits, inputs, blocks), open)
         && r.events == RenderedAll(stream, limits, inputs, blocks)
       case Some(u) =>
         && Within(limits, inputs, s, EndOf(blocks), Cut(limits, inputs, blocks), open)
         && r.events == RenderedAll(stream, limits, inputs, blocks) + Opening(stream, inputs, open, n - |s.trailing|, u)
  }

  // ----- later input changes nothing about earlier blocks -----

  lemma {:induction false} SilenceGrows(inputs: seq<Input>, x: Input, lo: nat, hi: nat)
    requires lo <= hi <= |inputs|
    ensures Silence(inputs + [x], lo, hi) == Silence(inputs, lo, hi)
  {
    if lo < hi { SilenceGrows(inputs, x, lo, hi - 1); }
  }

  lemma SilencesGrow(inputs: seq<Input>, x: Input)
    ensures forall lo, hi :: 0 <= lo <= hi <= |inputs| ==> Silence(inputs + [x], lo, hi) == Silence(inputs, lo, hi)
  {
    forall lo: nat, hi: nat | lo <= hi <= |inputs|
      ensures Silence(inputs + [x], lo, hi) == Silence(inputs, lo, hi)
    {
      SilenceGrows(inputs, x, lo, hi);
    }
  }

  lemma ListeningGrows(inputs: seq<Input>, x: Input, end: nat, cut: bool)
    ensures forall j :: 0 <= j <= |inputs| ==> (Listening(inputs + [x], end, cut, j) <==>
            Listening(inputs, end, cut, j))
  {
    SilencesGrow(inputs, x);
    forall j | 0 <= j <= |inputs|
      ensures Listening(inputs + [x], end, cut, j) <==> Listening(inputs, end, cut, j)
    {
      forall p | end <= p <= j
        ensures Silence(inputs + [x], end, p) == Silence(inputs, end, p)
      {}
    }
  }

  lemma BeginsGrows(limits: Limits, inputs: seq<Input>, x: Input, end: nat, cut: bool, lo: nat)
    requires lo + limits.confirmation <= |inputs| + 1
    ensures NoneBegins(limits, inputs + [x], end, cut, lo) <==> NoneBegins(limits, inputs, end, cut, lo)
    ensures lo + limits.confirmation <= |inputs| ==>
              (Begins(limits, inputs + [x], end, cut, lo) <==> Begins(limits, inputs, end, cut, lo))
  {
    ListeningGrows(inputs, x, end, cut);
    forall j: nat | j + limits.confirmation <= |inputs|
      ensures Begins(limits, inputs + [x], end, cut, j) <==> Begins(limits, inputs, end, cut, j)
    {
      assert AllVoice(inputs + [x], j, j + limits.confirmation) <==> AllVoice(inputs, j, j + limits.confirmation) by {
        forall i | j <= i < j + limits.confirmation ensures (inputs + [x])[i] == inputs[i] {}
      }
    }
  }

  lemma UnbrokenGrows(limits: Limits, inputs: seq<Input>, x: Input, lo: nat, hi: nat)
    requires lo + limits.confirmation <= hi <= |inputs|
    ensures Unbroken(limits, inputs + [x], lo, hi) <==> Unbroken(limits, inputs, lo, hi)
  {
    SilencesGrow(inputs, x);
    forall k | lo + limits.confirmation <= k <= hi
      ensures MustEnd(limits, inputs + [x], lo, k) <==> MustEnd(limits, inputs, lo, k)
    {}
    assert AllVoice(inputs + [x], lo, lo + limits.confirmation) <==> AllVoice(inputs, lo, lo + limits.confirmation) by {
      forall i | lo <= i < lo + limits.confirmation ensures (inputs + [x])[i] == inputs[i] {}
    }
  }

  lemma DueGrows(limits: Limits, inputs: seq<Input>, x: Input, end: nat, cut: bool, b: Block)
    requires Due(limits, inputs, end, cut, b)
    ensures Due(limits, inputs + [x], end, cut, b)
    ensures CutInPause(limits, inputs + [x], b) <==> CutInPause(limits, inputs, b)
  {
    BeginsGrows(limits, inputs, x, end, cut, b.lo);
    UnbrokenGrows(limits, inputs, x, b.lo, b.hi - 1);
    SilenceGrows(inputs, x, b.lo, b.hi);
  }

  lemma {:induction false} BlocksGrow(limits: Limits, inputs: seq<Input>, x: Input, blocks: seq<Block>)
    requires AllDue(limits, inputs, blocks)
    ensures AllDue(limits, inputs + [x], blocks)
    ensures Cut(limits, inputs + [x], blocks) <==> Cut(limits, inputs, blocks)
    ensures EndOf(blocks) <= |inputs|
  {
    if blocks != [] {
      var (earlier, b) := (blocks[..|blocks| - 1], blocks[|blocks| - 1]);
      BlocksGrow(limits, inputs, x, earlier);
      DueGrows(limits, inputs, x, EndOf(earlier), Cut(limits, inputs, earlier), b);
    }
  }

  lemma OpeningGrows(stream: Uuid, inputs: seq<Input>, x: Input, lo: nat, hi: nat, u: Uuid)
    requires lo < hi <= |inputs|
    ensures Opening(stream, inputs + [x], lo, hi, u) == Opening(stream, inputs, lo, hi, u)
  {
    assert FramesAt(inputs + [x], lo, hi) == FramesAt(inputs, lo, hi);
  }

  lemma {:induction false} RenderedGrows(stream: Uuid, limits: Limits, inputs: seq<Input>, x: Input, blocks: seq<Block>)
    requires Sensible(limits) && AllDue(limits, inputs, blocks) && AllDue(limits, inputs + [x], blocks)
    ensures RenderedAll(stream, limits, inputs + [x], blocks) == RenderedAll(stream, limits, inputs, blocks)
  {
    if blocks != [] {
      var (earlier, b) := (blocks[..|blocks| - 1], blocks[|blocks| - 1]);
      RenderedGrows(stream, limits, inputs, x, earlier);
      OpeningGrows(stream, inputs, x, b.lo, b.hi - 1, b.utterance);
    }
  }

  lemma FramesMore(inputs: seq<Input>, x: Input, lo: nat)
    requires lo <= |inputs|
    ensures FramesAt(inputs + [x], lo, |inputs| + 1) == FramesAt(inputs, lo, |inputs|) + [x.frame]
  {}

  lemma OpeningMore(stream: Uuid, inputs: seq<Input>, lo: nat, mid: nat, hi: nat, u: Uuid)
    requires lo < mid <= hi <= |inputs|
    ensures Opening(stream, inputs, lo, mid, u) + Carried(stream, u, FramesAt(inputs, mid, hi)) ==
            Opening(stream, inputs, lo, hi, u)
  {
    assert FramesAt(inputs, lo, mid) + FramesAt(inputs, mid, hi) == FramesAt(inputs, lo, hi);
  }

  // ----- one more frame -----

  /** Nothing has begun up to here, with one frame more. */
  lemma NoneBegunYet(limits: Limits, inputs: seq<Input>, s: Segmenter, end: nat, cut: bool, open: nat, x: Input)
    requires Sensible(limits) && Between(limits, inputs, s, end, cut, open)
    requires x.voice ==> s.rearm.Some? || |inputs| + 1 - open < limits.confirmation
    ensures var more := inputs + [x];
            |more| + 1 >= limits.confirmation ==>
              NoneBegins(limits, more, end, cut, |more| + 1 - limits.confirmation)
  {
    if |inputs| + 1 >= limits.confirmation {
      BeginsGrows(limits, inputs, x, end, cut, |inputs| + 1 - limits.confirmation);
      LastBegins(limits, inputs, s, end, cut, open, x);
    }
    hide Begins;
  }

  /** The silence counted while waiting for quiet, with one frame more. */
  lemma QuietMeans(inputs: seq<Input>, end: nat, x: Input)
    requires end <= |inputs| && !Listening(inputs, end, true, |inputs|)
    ensures var (more, n) := (inputs + [x], |inputs| + 1);
            && Silence(more, end, n) == (if x.voice then 0 else Silence(inputs, end, |inputs|) + 1)
            && (Listening(more, end, true, n) <==> Silence(more, end, n) >= 15)
  {
    var more := inputs + [x];
    SilenceGrows(inputs, x, end, |inputs|);
    ListeningGrows(inputs, x, end, true);
    assert more[|inputs|] == x;
    assert !Listening(more, end, true, |inputs|);
  }

  /** One frame more while waiting for quiet. */
  lemma StillWaiting(limits: Limits, inputs: seq<Input>, s: Segmenter, end: nat, cut: bool, open: nat, x: Input)
    requires Sensible(limits) && s.limits == limits && s.utterance.None? && s.rearm.Some?
    requires Between(limits, inputs, s, end, cut, open)
    ensures Between(limits, inputs + [x], Hear(s, x.frame, x.voice, x.newId).segmenter, end, cut, |inputs| + 1)
  {
    NoneBegunYet(limits, inputs, s, end, cut, open, x);
    QuietMeans(inputs, end, x);
    hide NoneBegins, Listening, Silence;
    var more := inputs + [x];
    assert AllVoice(more, |more|, |more|) && FramesAt(more, |more|, |more|) == [];
    if !x.voice { assert more[|inputs|] == x; }
  }

  /** One frame more while listening, with nothing confirmed by it. */
  lemma StillListening(limits: Limits, inputs: seq<Input>, s: Segmenter, end: nat, cut: bool, open: nat, x: Input)
    requires Sensible(limits) && s.limits == limits && s.utterance.None? && s.rearm.None?
    requires Between(limits, inputs, s, end, cut, open)
    requires x.voice ==> |inputs| + 1 - open < limits.confirmation
    ensures var open' := if x.voice then open else |inputs| + 1;
            Between(limits, inputs + [x], Hear(s, x.frame, x.voice, x.newId).segmenter, end, cut, open')
  {
    NoneBegunYet(limits, inputs, s, end, cut, open, x);
    ListeningGrows(inputs, x, end, cut);
    ListeningOn(inputs + [x], end, cut, open, |inputs| + 1);
    FramesMore(inputs, x, open);
    hide NoneBegins, Listening, Silence;
    var more := inputs + [x];
    assert more[|inputs|] == x && FramesAt(more, |more|, |more|) == [];
    assert open > 0 ==> more[open - 1] == if open == |inputs| + 1 then x else inputs[open - 1];
    assert AllVoice(more, open, |inputs|);
  }

  lemma ListeningOn(inputs: seq<Input>, end: nat, cut: bool, i: nat, j: nat)
    requires i <= j <= |inputs| && Listening(inputs, end, cut, i)
    ensures Listening(inputs, end, cut, j)
  {
    hide Silence;
  }

  /** One frame more between utterances, with nothing new beginning. */
  lemma StillBetween(limits: Limits, inputs: seq<Input>, s: Segmenter, end: nat, cut: bool, open: nat, x: Input)
    requires Sensible(limits) && s.limits == limits && s.utterance.None?
    requires Between(limits, inputs, s, end, cut, open)
    requires x.voice ==> s.rearm.Some? || |inputs| + 1 - open < limits.confirmation
    ensures var open' := if x.voice && s.rearm.None? then open else |inputs| + 1;
            Between(limits, inputs + [x], Hear(s, x.frame, x.voice, x.newId).segmenter, end, cut, open')
  {
    hide Between, Hear;
    if s.rearm.Some? {
      StillWaiting(limits, inputs, s, end, cut, open, x);
    } else {
      StillListening(limits, inputs, s, end, cut, open, x);
    }
  }

  lemma LastBegins(limits: Limits, inputs: seq<Input>, s: Segmenter, end: nat, cut: bool, open: nat, x: Input)
    requires Sensible(limits) && |inputs| + 1 >= limits.confirmation
    requires Between(limits, inputs, s, end, cut, open)
    requires x.voice ==> s.rearm.Some? || |inputs| + 1 - open < limits.confirmation
    ensures var j := |inputs| + 1 - limits.confirmation; end <= j ==> !Begins(limits, inputs + [x], end, cut, j)
  {
    var (n, j) := (|inputs|, |inputs| + 1 - limits.confirmation);
    ListeningGrows(inputs, x, end, cut);
    assert (inputs + [x])[n] == x;
    if open > 0 {
      assert (inputs + [x])[open - 1] == if open == n + 1 then x else inputs[open - 1];
    }
  }

  /** Speech is confirmed: an utterance begins. */
  lemma Confirmed(limits: Limits, inputs: seq<Input>, s: Segmenter, end: nat, cut: bool, open: nat, x: Input)
    requires Sensible(limits) && s.limits == limits && s.utterance.None?
    requires Between(limits, inputs, s, end, cut, open)
    requires x.voice && s.rearm.None? && |inputs| + 1 - open == limits.confirmation
    ensures Within(limits, inputs + [x], Hear(s, x.frame, x.voice, x.newId).segmenter, end, cut, open)
    ensures Silence(inputs + [x], open, |inputs| + 1) == 0
  {
    ListeningGrows(inputs, x, end, cut);
    FramesMore(inputs, x, open);
    BeginsGrows(limits, inputs, x, end, cut, open);
  }

  lemma HearBetween(stream: Uuid, limits: Limits, inputs: seq<Input>, r: Run, blocks: seq<Block>, open: nat, x: Input)
    returns (open': nat)
    requires Accounted(stream, limits, inputs, r, blocks, open) && r.segmenter.utterance.None?
    ensures var h := Hear(r.segmenter, x.frame, x.voice, x.newId);
            Accounted(stream, limits, inputs + [x], Run(h.segmenter, r.events + h.events), blocks, open')
  {
    hide Between, Within, Unbroken, MustEnd, Begins, NoneBegins;
    var (s, n, end, cut) := (r.segmenter, |inputs|, EndOf(blocks), Cut(limits, inputs, blocks));
    BlocksGrow(limits, inputs, x, blocks);
    RenderedGrows(stream, limits, inputs, x, blocks);
    assert r.events + [] == r.events;
    if s.rearm.None? && x.voice && n + 1 - open == limits.confirmation {
      open' := open;
      Confirmed(limits, inputs, s, end, cut, open, x);
      FramesMore(inputs, x, open);
      PendingIs(limits, inputs, s, end, cut, open);
    } else {
      open' := if x.voice && s.rearm.None? then open else n + 1;
      PendingIs(limits, inputs, s, end, cut, open);
      StillBetween(limits, inputs, s, end, cut, open, x);
    }
  }

  lemma PendingIs(limits: Limits, inputs: seq<Input>, s: Segmenter, end: nat, cut: bool, open: nat)
    requires Between(limits, inputs, s, end, cut, open)
    ensures open <= |inputs| && s.pending == FramesAt(inputs, open, |inputs|) && |inputs| - open < limits.confirmation
  {}

  /** The utterance goes on. */
  lemma StillWithin(limits: Limits, inputs: seq<Input>, s: Segmenter, end: nat, cut: bool, open: nat, x: Input)
    requires Sensible(limits) && s.limits == limits && s.utterance.Some?
    requires Within(limits, inputs, s, end, cut, open)
    requires !MustEnd(limits, inputs + [x], open, |inputs| + 1)
    ensures var h := Hear(s, x.frame, x.voice, x.newId);
            && Within(limits, inputs + [x], h.segmenter, end, cut, open)
            && h.segmenter.utterance == s.utterance && h.segmenter.stream == s.stream && h.segmenter.limits == limits
            && (x.voice ==>
                  && h.events == Carried(s.stream, s.utterance.value, s.trailing + [x.frame])
                  && h.segmenter.trailing == [])
            && (!x.voice ==> h.events == [] && |h.segmenter.trailing| == |s.trailing| + 1)
  {
    var (n, more) := (|inputs|, inputs + [x]);
    SilenceGrows(inputs, x, open, n);
    UnbrokenGrows(limits, inputs, x, open, n);
    BeginsGrows(limits, inputs, x, end, cut, open);
    FramesMore(inputs, x, n - |s.trailing|);
  }

  /** The utterance ends, and the segmenter waits for quiet exactly when it was cut in a pause. */
  lemma Ended(limits: Limits, inputs: seq<Input>, s: Segmenter, end: nat, cut: bool, open: nat, x: Input)
    requires Sensible(limits) && s.limits == limits && s.utterance.Some?
    requires Within(limits, inputs, s, end, cut, open)
    requires MustEnd(limits, inputs + [x], open, |inputs| + 1)
    ensures var (h, more) := (Hear(s, x.frame, x.voice, x.newId), inputs + [x]);
            var b := Block(open, |inputs| + 1, s.utterance.value);
            && h == Finish(s, s.utterance.value, s.trailing + [x.frame], h.segmenter.rearm)
            && Due(limits, more, end, cut, b)
            && Between(limits, more, h.segmenter, b.hi, CutInPause(limits, more, b), b.hi)
  {
    var (n, more) := (|inputs|, inputs + [x]);
    SilenceGrows(inputs, x, open, n);
    UnbrokenGrows(limits, inputs, x, open, n);
    BeginsGrows(limits, inputs, x, end, cut, open);
    assert !MustEnd(limits, inputs, open, n);
  }

  lemma HearGoesOn(stream: Uuid, limits: Limits, inputs: seq<Input>, r: Run, blocks: seq<Block>, open: nat, x: Input)
    requires Accounted(stream, limits, inputs, r, blocks, open) && r.segmenter.utterance.Some?
    requires open <= |inputs| && !MustEnd(limits, inputs + [x], open, |inputs| + 1)
    ensures var h := Hear(r.segmenter, x.frame, x.voice, x.newId);
            Accounted(stream, limits, inputs + [x], Run(h.segmenter, r.events + h.events), blocks, open)
  {
    hide Between, Unbroken, MustEnd, Begins, NoneBegins, Silence, Hear, Opening, RenderedAll, FramesAt;
    var (s, n, u, more) := (r.segmenter, |inputs|, r.segmenter.utterance.value, inputs + [x]);
    var (end, cut, mid) := (EndOf(blocks), Cut(limits, inputs, blocks), |inputs| - |s.trailing|);
    var h := Hear(s, x.frame, x.voice, x.newId);
    BlocksGrow(limits, inputs, x, blocks);
    RenderedGrows(stream, limits, inputs, x, blocks);
    OpeningGrows(stream, inputs, x, open, mid, u);
    FramesMore(inputs, x, mid);
    StillWithin(limits, inputs, s, end, cut, open, x);
    if x.voice {
      OpeningMore(stream, more, open, mid, n + 1, u);
      assert r.events + h.events ==
             RenderedAll(stream, limits, more, blocks) +
             (Opening(stream, more, open, mid, u) + Carried(stream, u, s.trailing + [x.frame]));
    } else {
      assert r.events + [] == r.events;
    }
  }

  /** One more block at the end. */
  lemma MoreDue(stream: Uuid, limits: Limits, inputs: seq<Input>, blocks: seq<Block>, b: Block)
    requires Sensible(limits) && AllDue(limits, inputs, blocks)
    requires Due(limits, inputs, EndOf(blocks), Cut(limits, inputs, blocks), b)
    ensures AllDue(limits, inputs, blocks + [b]) && EndOf(blocks + [b]) == b.hi
    ensures Cut(limits, inputs, blocks + [b]) <==> CutInPause(limits, inputs, b)
    ensures RenderedAll(stream, limits, inputs, blocks + [b]) ==
            RenderedAll(stream, limits, inputs, blocks) + Rendered(stream, inputs, b)
  {
    hide Begins, NoneBegins, Unbroken, MustEnd, PauseEnds, Named;
    assert (blocks + [b])[..|blocks|] == blocks;
  }

  /** What was said of an utterance and what is said at its end make the whole utterance. */
  lemma EndingRenders(stream: Uuid, inputs: seq<Input>, mid: nat, b: Block, held: seq<PcmFrame>)
    requires b.lo < mid < b.hi <= |inputs| && b.lo + 1 < b.hi && held == FramesAt(inputs, mid, b.hi)
    ensures Opening(stream, inputs, b.lo, mid, b.utterance) +
            (Carried(stream, b.utterance, held[..|held| - 1]) +
             [CaptureFrame(stream, b.utterance, held[|held| - 1], true)]) ==
            Rendered(stream, inputs, b)
  {
    assert held[..|held| - 1] == FramesAt(inputs, mid, b.hi - 1);
    OpeningMore(stream, inputs, b.lo, mid, b.hi - 1, b.utterance);
    hide Opening, Carried;
    assert Opening(stream, inputs, b.lo, mid, b.utterance) +
           (Carried(stream, b.utterance, held[..|held| - 1]) +
            [CaptureFrame(stream, b.utterance, held[|held| - 1], true)]) ==
           (Opening(stream, inputs, b.lo, mid, b.utterance) + Carried(stream, b.utterance, held[..|held| - 1])) +
           [CaptureFrame(stream, b.utterance, held[|held| - 1], true)];
  }

  lemma HearEnds(stream: Uuid, limits: Limits, inputs: seq<Input>, r: Run, blocks: seq<Block>, open: nat, x: Input)
    requires Accounted(stream, limits, inputs, r, blocks, open) && r.segmenter.utterance.Some?
    requires open <= |inputs| && MustEnd(limits, inputs + [x], open, |inputs| + 1)
    ensures var (h, n) := (Hear(r.segmenter, x.frame, x.voice, x.newId), |inputs|);
            Accounted(stream, limits, inputs + [x], Run(h.segmenter, r.events + h.events),
                      blocks + [Block(open, n + 1, r.segmenter.utterance.value)], n + 1)
  {
    hide Between, Unbroken, MustEnd, Begins, NoneBegins, Named, Silence, Hear, PauseEnds, Due, AllDue, Cut, EndOf,
         Opening, Carried, FramesAt, Rendered, RenderedAll;
    var (s, n, u, more) := (r.segmenter, |inputs|, r.segmenter.utterance.value, inputs + [x]);
    var (end, cut, mid) := (EndOf(blocks), Cut(limits, inputs, blocks), |inputs| - |s.trailing|);
    var h := Hear(s, x.frame, x.voice, x.newId);
    var b := Block(open, n + 1, u);
    BlocksGrow(limits, inputs, x, blocks);
    RenderedGrows(stream, limits, inputs, x, blocks);
    OpeningGrows(stream, inputs, x, open, mid, u);
    FramesMore(inputs, x, mid);
    Ended(limits, inputs, s, end, cut, open, x);
    MoreDue(stream, limits, more, blocks, b);
    EndingRenders(stream, more, mid, b, s.trailing + [x.frame]);
    var (all, said) := (RenderedAll(stream, limits, more, blocks), Opening(stream, more, open, mid, u));
    assert (all + said) + h.events == all + (said + h.events);
  }

  /** For any voice pattern: the output is the blocks due, rendered in order, then the
      beginning of the utterance still open, if one is; everything else was dropped between
      utterances or is still held. */
  lemma {:induction false} Segmented(stream: Uuid, asked: Limits, inputs: seq<Input>)
    returns (blocks: seq<Block>, open: nat)
    ensures Accounted(stream, Clamped(asked), inputs, Listen(stream, asked, inputs), blocks, open)
  {
    if inputs == [] {
      blocks, open := [], 0;
    } else {
      var (before, x) := (inputs[..|inputs| - 1], inputs[|inputs| - 1]);
      assert before + [x] == inputs;
      var r := Listen(stream, asked, before);
      blocks, open := Segmented(stream, asked, before);
      if r.segmenter.utterance.None? {
        open := HearBetween(stream, Clamped(asked), before, r, blocks, open, x);
      } else {
        if MustEnd(Clamped(asked), inputs, open, |inputs|) {
          HearEnds(stream, Clamped(asked), before, r, blocks, open, x);
          blocks, open := blocks + [Block(open, |inputs|, r.segmenter.utterance.value)], |inputs|;
        } else {
          HearGoesOn(stream, Clamped(asked), before, r, blocks, open, x);
        }
      }
    }
  }

  /** Completed utterances lie in the input in order and never overlap. */
  lemma {:induction false} BlocksApart(limits: Limits, inputs: seq<Input>, blocks: seq<Block>, i: nat, j: nat)
    requires AllDue(limits, inputs, blocks) && i < j < |blocks|
    ensures blocks[i].lo + limits.confirmation < blocks[i].hi <= blocks[j].lo < blocks[j].hi <= |inputs|
    ensures blocks[i].hi - blocks[i].lo <= limits.maxFrames
  {
    if j < |blocks| - 1 {
      BlocksApart(limits, inputs, blocks[..|blocks| - 1], i, j);
    } else if i < j - 1 {
      BlocksApart(limits, inputs, blocks[..|blocks| - 1], i, j - 1);
    }
  }

  /** The voice pattern alone fixes where the next utterance lies. */
  lemma DueOnce(limits: Limits, inputs: seq<Input>, end: nat, cut: bool, a: Block, b: Block)
    requires Due(limits, inputs, end, cut, a) && Due(limits, inputs, end, cut, b)
    ensures a == b
  {
    hide Begins, MustEnd;
  }

  /** Two lists of due blocks of one voice pattern agree as far as both go. */
  lemma {:induction false} BlocksOnce(limits: Limits, inputs: seq<Input>, xs: seq<Block>, ys: seq<Block>)
    requires AllDue(limits, inputs, xs) && AllDue(limits, inputs, ys) && |xs| <= |ys|
    ensures xs == ys[..|xs|] && AllDue(limits, inputs, ys[..|xs|])
    decreases |ys|
  {
    hide Due, Cut, EndOf;
    if |xs| < |ys| {
      BlocksOnce(limits, inputs, xs, ys[..|ys| - 1]);
      assert ys[..|ys| - 1][..|xs|] == ys[..|xs|];
    } else if xs != [] {
      var (xs', ys') := (xs[..|xs| - 1], ys[..|ys| - 1]);
      BlocksOnce(limits, inputs, xs', ys');
      assert xs' == ys';
      hide AllDue;
      DueOnce(limits, inputs, EndOf(xs'), Cut(limits, inputs, xs'), xs[|xs| - 1], ys[|ys| - 1]);
      assert xs == xs' + [xs[|xs| - 1]] && ys == ys' + [ys[|ys| - 1]] && ys[..|xs|] == ys;
    } else {
      assert ys[..0] == [];
    }
  }

  /** Once the blocks so far are told, no further block can be due. */
  lemma NoneLeft(stream: Uuid, limits: Limits, inputs: seq<Input>, r: Run, blocks: seq<Block>, open: nat, b: Block)
    requires Accounted(stream, limits, inputs, r, blocks, open)
    ensures !Due(limits, inputs, EndOf(blocks), Cut(limits, inputs, blocks), b)
  {
    hide Begins, MustEnd, AllDue, RenderedAll, Opening, Cut, EndOf, Silence, FramesAt, Named;
  }

  lemma {:induction false} NextDue(limits: Limits, inputs: seq<Input>, ys: seq<Block>, k: nat)
    requires AllDue(limits, inputs, ys) && k < |ys|
    ensures Due(limits, inputs, EndOf(ys[..k]), Cut(limits, inputs, ys[..k]), ys[k])
  {
    hide Due, Cut, EndOf;
    if k < |ys| - 1 {
      NextDue(limits, inputs, ys[..|ys| - 1], k);
      assert ys[..|ys| - 1][..k] == ys[..k];
    }
  }

  /** No list of due blocks is longer than what was told. */
  lemma ToldAll(stream: Uuid, limits: Limits, inputs: seq<Input>, r: Run, blocks: seq<Block>, open: nat, ys: seq<Block>)
    requires Accounted(stream, limits, inputs, r, blocks, open) && AllDue(limits, inputs, ys)
    ensures |ys| <= |blocks|
  {
    hide Due, Between, Within, RenderedAll, Cut, EndOf;
    if |blocks| < |ys| {
      BlocksOnce(limits, inputs, blocks, ys);
      NextDue(limits, inputs, ys, |blocks|);
      NoneLeft(stream, limits, inputs, r, blocks, open, ys[|blocks|]);
      assert false;
    }
  }

  /** The voice pattern and the identifiers offered fix the utterances: any two readings of
      what was said are the same. */
  lemma ReadingsAgree(stream: Uuid, limits: Limits, inputs: seq<Input>, r: Run,
                      xs: seq<Block>, i: nat, ys: seq<Block>, j: nat)
    requires Accounted(stream, limits, inputs, r, xs, i) && Accounted(stream, limits, inputs, r, ys, j)
    ensures xs == ys
  {
    hide Between, Within, RenderedAll, Cut, EndOf;
    ToldAll(stream, limits, inputs, r, xs, i, ys);
    ToldAll(stream, limits, inputs, r, ys, j, xs);
    BlocksOnce(limits, inputs, xs, ys);
    assert ys[..|xs|] == ys;
  }

  /** If no identifier is offered twice, no two utterances bear the same one. */
  lemma IdentifiersApart(limits: Limits, inputs: seq<Input>, blocks: seq<Block>, i: nat, j: nat)
    requires AllDue(limits, inputs, blocks) && i < j < |blocks|
    requires forall k, m :: 0 <= k < m < |inputs| ==> inputs[k].newId != inputs[m].newId
    ensures blocks[i].utterance != blocks[j].utterance
  {
    BlocksApart(limits, inputs, blocks, i, j);
    NextDue(limits, inputs, blocks, i);
    NextDue(limits, inputs, blocks, j);
    hide Begins, NoneBegins, Unbroken, MustEnd, AllDue, Cut, EndOf;
  }
}
