/** The segmenter as the daemon keeps it, fed one frame at a time. */
module SpeechSegmentation {
  import opened Wire
  import opened DirectionSessionModel
  import S = SegmenterModel
  import opened SegmenterModel

  class SpeechSegmenter {
    const stream: Uuid
    const limits: Limits
    var utterance: Option<Uuid>
    var pending: seq<PcmFrame>
    var trailing: seq<PcmFrame>
    var activeFrames: nat
    var rearm: Option<nat>

    function View(): Segmenter
      reads this
    {
      Segmenter(stream, limits, utterance, pending, trailing, activeFrames, rearm)
    }

    constructor (stream: Uuid, asked: Limits)
      ensures View() == Quiet(stream, asked)
    {
      this.stream := stream;
      limits := Clamped(asked);
      utterance, pending, trailing, activeFrames, rearm := None, [], [], 0, None;
    }

    /** The held frames as events, the held frames given up. */
    method DrainTrailing(u: Uuid) returns (events: seq<CaptureEvent>)
      modifies this`trailing
      ensures trailing == [] && events == Carried(stream, u, old(trailing))
    {
      events := [];
      while trailing != []
        invariant |events| + |trailing| == |old(trailing)| && trailing == old(trailing)[|events|..]
        invariant events == Carried(stream, u, old(trailing)[..|events|])
        decreases |trailing|
      {
        events := events + [CaptureFrame(stream, u, trailing[0], false)];
        trailing := trailing[1..];
      }
      assert old(trailing)[..|events|] == old(trailing);
    }

    method ProcessIdle(frame: PcmFrame, voice: bool, newId: Uuid) returns (events: seq<CaptureEvent>)
      modifies this
      ensures Heard(View(), events) == Idle(old(View()), frame, voice, newId)
    {
      hide Carried;
      if !voice {
        pending := [];
        return [];
      }
      pending := pending + [frame];
      if |pending| < limits.confirmation {
        return [];
      }
      utterance := Some(newId);
      activeFrames := |pending|;
      events := [SpeechStarted(stream, newId, pending[0].captureNs)] + Carried(stream, newId, pending);
      pending := [];
    }

    method ProcessActive(frame: PcmFrame, voice: bool, u: Uuid) returns (events: seq<CaptureEvent>)
      modifies this
      ensures Heard(View(), events) == Speaking(old(View()), frame, voice, u)
    {
      hide Carried;
      if voice {
        activeFrames := activeFrames + 1;
        events := DrainTrailing(u);
        if activeFrames >= limits.maxFrames {
          events := events + [CaptureFrame(stream, u, frame, true)];
          utterance, activeFrames := None, 0;
        } else {
          CarriedMore(stream, u, old(trailing), frame);
          events := events + [CaptureFrame(stream, u, frame, false)];
        }
        assert (old(trailing) + [frame])[..|old(trailing)|] == old(trailing);
        return;
      }
      trailing := trailing + [frame];
      activeFrames := activeFrames + 1;
      var enough := if activeFrames >= limits.minFrames then limits.adaptiveSilence
          else END_OF_UTTERANCE_SILENCE_FRAMES;
      if |trailing| < enough {
        if activeFrames < limits.maxFrames {
          return [];
        }
        events := FinishWithTrailingSilence(u, true);
      } else {
        events := FinishWithTrailingSilence(u, false);
      }
    }

    method FinishWithTrailingSilence(u: Uuid, forced: bool) returns (events: seq<CaptureEvent>)
      requires trailing != []
      modifies this
      ensures Heard(View(), events) == Finish(old(View()), u, old(trailing), if forced then Some(0) else old(rearm))
    {
      hide Carried;
      var last := trailing[|trailing| - 1];
      trailing := trailing[..|trailing| - 1];
      events := DrainTrailing(u);
      events := events + [CaptureFrame(stream, u, last, true)];
      utterance, activeFrames := None, 0;
      if forced {
        rearm := Some(0);
      }
    }

    method Process(frame: PcmFrame, voice: Option<bool>, newId: Uuid) returns (attempt: Result<seq<CaptureEvent>>)
      modifies this
      ensures match S.Process(old(View()), frame, voice, newId)
              case Refused(error) => attempt == Failed(error) && View() == old(View())
              case Heeded(heard) => attempt == Said(heard.events) && View() == heard.segmenter
    {
      hide Idle, Speaking;
      if frame.format != PROVIDER_FORMAT {
        return Failed(UnsupportedFormat);
      }
      if voice.None? {
        return Failed(InvalidFrame);
      }
      if rearm.Some? {
        var quiet := if voice.value then 0 else rearm.value + 1;
        rearm := if quiet < END_OF_UTTERANCE_SILENCE_FRAMES then Some(quiet) else None;
        return Said([]);
      }
      var events;
      if utterance.Some? {
        events := ProcessActive(frame, voice.value, utterance.value);
      } else {
        events := ProcessIdle(frame, voice.value, newId);
      }
      return Said(events);
    }
  }

  datatype Result<T> = Said(value: T) | Failed(error: VadError)

  lemma CarriedMore(stream: Uuid, u: Uuid, frames: seq<PcmFrame>, frame: PcmFrame)
    ensures Carried(stream, u, frames + [frame]) == Carried(stream, u, frames) + [CaptureFrame(stream, u, frame, false)]
  {}
}
