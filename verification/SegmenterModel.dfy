/** Cutting a stream of captured frames into utterances: speech must be confirmed before an
    utterance starts, a pause ends it, a long utterance is cut, and after a cut in silence
    the segmenter waits for quiet before it listens again. */
module SegmenterModel {
  import opened Wire
  import opened DirectionSessionModel

  const MIN_SPEECH_CONFIRMATION_FRAMES: nat := 3
  const MAX_SPEECH_CONFIRMATION_FRAMES: nat := 25
  const END_OF_UTTERANCE_SILENCE_FRAMES: nat := 15
  const MIN_MAX_UTTERANCE_FRAMES: nat := 200
  const MAX_MAX_UTTERANCE_FRAMES: nat := 1_500

  datatype Limits = Limits(confirmation: nat, minFrames: nat, maxFrames: nat, adaptiveSilence: nat)

  function Apart(a: nat, b: nat): nat {
    if a < b then b - a else a - b
  }

  /** The value within the bounds that is nearest to the one asked for. */
  function Clamp(x: nat, low: nat, high: nat): (r: nat)
    requires low <= high
    ensures low <= r <= high && forall y :: low <= y <= high ==> Apart(x, r) <= Apart(x, y)
  {
    if x < low then low else if x > high then high else x
  }

  predicate Sensible(l: Limits) {
    && 3 <= l.confirmation <= 25 && 200 <= l.maxFrames <= 1_500
    && l.confirmation <= l.minFrames <= l.maxFrames && 1 <= l.adaptiveSilence <= 15
  }

  /** Of sensible limits, these are the nearest to the ones asked for: confirmation and greatest
      length first, then the others. */
  ghost predicate Nearest(asked: Limits, l: Limits) {
    forall other :: Sensible(other) ==>
      && Apart(asked.confirmation, l.confirmation) <= Apart(asked.confirmation, other.confirmation)
      && Apart(asked.maxFrames, l.maxFrames) <= Apart(asked.maxFrames, other.maxFrames)
      && Apart(asked.adaptiveSilence, l.adaptiveSilence) <= Apart(asked.adaptiveSilence, other.adaptiveSilence)
      && (other.confirmation == l.confirmation && other.maxFrames == l.maxFrames ==>
            Apart(asked.minFrames, l.minFrames) <= Apart(asked.minFrames, other.minFrames))
  }

  /** Whatever limits are asked for, the segmenter works with sensible ones, the nearest there are. */
  function Clamped(asked: Limits): (l: Limits)
    ensures Sensible(l) && Nearest(asked, l)
    ensures Sensible(asked) ==> l == asked
  {
    var confirmation := Clamp(asked.confirmation, MIN_SPEECH_CONFIRMATION_FRAMES, MAX_SPEECH_CONFIRMATION_FRAMES);
    var maxFrames := Clamp(asked.maxFrames, MIN_MAX_UTTERANCE_FRAMES, MAX_MAX_UTTERANCE_FRAMES);
    Limits(confirmation, Clamp(asked.minFrames, confirmation, maxFrames), maxFrames,
           Clamp(asked.adaptiveSilence, 1, END_OF_UTTERANCE_SILENCE_FRAMES))
  }

  datatype Segmenter = Segmenter(
    stream: Uuid,
    limits: Limits,
    utterance: Option<Uuid>,
    pending: seq<PcmFrame>,
    trailing: seq<PcmFrame>,
    activeFrames: nat,
    rearm: Option<nat>)

  datatype VadError = UnsupportedFormat | InvalidFrame
  datatype Heard = Heard(segmenter: Segmenter, events: seq<CaptureEvent>)
  datatype Attempt = Heeded(heard: Heard) | Refused(error: VadError)

  function Quiet(stream: Uuid, asked: Limits): Segmenter {
    Segmenter(stream, Clamped(asked), None, [], [], 0, None)
  }

  /** Frames of an utterance that does not end with them. */
  function Carried(stream: Uuid, u: Uuid, frames: seq<PcmFrame>): seq<CaptureEvent> {
    seq(|frames|, i requires 0 <= i < |frames| => CaptureFrame(stream, u, frames[i], false))
  }

  function Rearming(s: Segmenter, voice: bool): Heard
    requires s.rearm.Some?
  {
    var quiet := if voice then 0 else s.rearm.value + 1;
    Heard(s.(rearm := if quiet < END_OF_UTTERANCE_SILENCE_FRAMES then Some(quiet) else None), [])
  }

  function Idle(s: Segmenter, frame: PcmFrame, voice: bool, newId: Uuid): Heard {
    if !voice then Heard(s.(pending := []), [])
    else
      var pending := s.pending + [frame];
      if |pending| < s.limits.confirmation then Heard(s.(pending := pending), [])
      else
        Heard(s.(utterance := Some(newId), activeFrames := |pending|, pending := []),
              [SpeechStarted(s.stream, newId, pending[0].captureNs)] + Carried(s.stream, newId, pending))
  }

  function Finish(s: Segmenter, u: Uuid, frames: seq<PcmFrame>, rearm: Option<nat>): Heard
    requires frames != []
  {
    Heard(s.(utterance := None, trailing := [], activeFrames := 0, rearm := rearm),
          Carried(s.stream, u, frames[..|frames| - 1]) + [CaptureFrame(s.stream, u, frames[|frames| - 1], true)])
  }

  function Speaking(s: Segmenter, frame: PcmFrame, voice: bool, u: Uuid): Heard {
    var held := s.trailing + [frame];
    var n := s.activeFrames + 1;
    if voice then
      if n >= s.limits.maxFrames then Finish(s, u, held, s.rearm)
      else Heard(s.(trailing := [], activeFrames := n), Carried(s.stream, u, held))
    else
      var enough := if n >= s.limits.minFrames then s.limits.adaptiveSilence else END_OF_UTTERANCE_SILENCE_FRAMES;
      if |held| >= enough then Finish(s, u, held, s.rearm)
      else if n >= s.limits.maxFrames then Finish(s, u, held, Some(0))
      else Heard(s.(trailing := held, activeFrames := n), [])
  }

  function Hear(s: Segmenter, frame: PcmFrame, voice: bool, newId: Uuid): Heard {
    if s.rearm.Some? then Rearming(s, voice)
    else if s.utterance.Some? then Speaking(s, frame, voice, s.utterance.value)
    else Idle(s, frame, voice, newId)
  }

  /** A frame in the wrong format, or one the detector refuses, changes nothing. */
  function Process(s: Segmenter, frame: PcmFrame, voice: Option<bool>, newId: Uuid): Attempt {
    if frame.format != PROVIDER_FORMAT then Refused(UnsupportedFormat)
    else if voice.None? then Refused(InvalidFrame)
    else Heeded(Hear(s, frame, voice.value, newId))
  }
}
