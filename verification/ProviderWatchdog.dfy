/** The deadline watchdog as the daemon keeps it: a map of watched utterances and the phase
    of the session, changed in place; polling walks the map. */
module ProviderWatchdog {
  import opened Wire
  import W = WatchdogModel
  import opened WatchdogModel

  class ProviderAudioWatchdog {
    const session: Uuid
    var utterances: map<Uuid, Watched>
    var phase: SessionPhase

    function View(): Watchdog
      reads this
    {
      Watchdog(session, utterances, phase)
    }

    constructor (session: Uuid)
      ensures View() == W.Fresh(session)
    {
      this.session := session;
      utterances, phase := map[], Active;
    }

    /** Back to a state remembered before. */
    method Restore(w: Watchdog)
      requires w.session == session
      modifies this
      ensures View() == w
    {
      utterances, phase := w.utterances, w.phase;
    }

    method StartUtterance(stream: Uuid, u: Uuid, captureNs: Ns) returns (error: Option<WatchdogError>)
      modifies this`utterances
      ensures Done(View(), error) == W.StartUtterance(old(View()), stream, u, captureNs)
    {
      if !phase.Active? { return Some(SessionTerminal); }
      if u in utterances { return Some(DuplicateUtterance); }
      utterances := utterances[u := Watched(stream, CollectingInput(SaturatingAdd(captureNs, COLLECTING_INPUT_NS)))];
      return None;
    }

    method RecordEndOfUtterance(stream: Uuid, u: Uuid, now: Ns) returns (error: Option<WatchdogError>)
      modifies this`utterances
      ensures Done(View(), error) == W.RecordEndOfUtterance(old(View()), stream, u, now)
    {
      error := AccessError(View(), stream, u);
      if error.Some? { return; }
      match utterances[u].phase {
        case CollectingInput(deadline) =>
          if now > deadline { return Some(DeadlineExpired); }
          var phase := AwaitingFirstAudio(SaturatingAdd(now, FIRST_AUDIO_NS));
          utterances := utterances[u := utterances[u].(phase := phase)];
          return None;
        case AwaitingFirstAudio(_) => return Some(InputAlreadyComplete);
        case StreamingAudio(_) => return Some(InputAlreadyComplete);
        case CancelPending(_) => return Some(CancelIsPending);
      }
    }

    method RecordAudio(stream: Uuid, u: Uuid, now: Ns) returns (error: Option<WatchdogError>)
      modifies this`utterances
      ensures Done(View(), error) == W.RecordAudio(old(View()), stream, u, now)
    {
      error := AudioError(View(), stream, u, now);
      if error.Some? { return; }
      utterances := utterances[u := utterances[u].(phase := StreamingAudio(SaturatingAdd(now, INTER_AUDIO_NS)))];
    }

    method FinishUtterance(stream: Uuid, u: Uuid, cancelled: bool) returns (error: Option<WatchdogError>)
      modifies this`utterances
      ensures Done(View(), error) == W.FinishUtterance(old(View()), stream, u, cancelled)
    {
      error := AccessError(View(), stream, u);
      if error.Some? { return; }
      if utterances[u].phase.CollectingInput? { return Some(InputNotComplete); }
      if utterances[u].phase.CancelPending? != cancelled { return Some(ExpectedCancelledFinal); }
      utterances := utterances - {u};
    }

    method DisarmUtterance(stream: Uuid, u: Uuid) returns (error: Option<WatchdogError>)
      modifies this`utterances
      ensures Done(View(), error) == W.DisarmUtterance(old(View()), stream, u)
    {
      if u !in utterances { return Some(UnknownUtterance); }
      if utterances[u].stream != stream { return Some(StreamMismatch); }
      utterances := utterances - {u};
      return None;
    }

    method RecordSessionClosed(closing: Uuid) returns (error: Option<WatchdogError>)
      modifies this
      ensures Done(View(), error) == W.RecordSessionClosed(old(View()), closing)
    {
      if closing != session { return Some(StreamMismatch); }
      utterances, phase := map[], Terminal;
      return None;
    }

    method CancelUtterance(stream: Uuid, u: Uuid, now: Ns) returns (error: Option<WatchdogError>)
      modifies this`utterances
      ensures Done(View(), error) == W.CancelUtterance(old(View()), stream, u, now)
    {
      error := AccessError(View(), stream, u);
      if error.Some? { return; }
      if utterances[u].phase.CollectingInput? { return Some(InputNotComplete); }
      if utterances[u].phase.CancelPending? { return Some(CancelIsPending); }
      utterances := utterances[u := utterances[u].(phase := CancelPending(SaturatingAdd(now, CANCEL_FINAL_NS)))];
    }

    /** The sweep over the watched utterances, in no particular order. */
    method Sweep(now: Ns) returns (overdue: set<Uuid>, closeDue: bool)
      modifies this`utterances
      ensures utterances == Swept(old(utterances), now)
      ensures overdue == Overdue(old(View()), now) && (closeDue <==> CloseDue(old(View()), now))
    {
      var was := utterances;
      var rest := utterances.Keys;
      overdue, closeDue := {}, false;
      while rest != {}
        invariant rest <= was.Keys == utterances.Keys
        invariant forall u <- was :: utterances[u] == if u !in rest && IsOverdue(was[u], now) then Expired(was[u], now)
                  else was[u]
        invariant overdue == set u <- was | u !in rest && IsOverdue(was[u], now)
        invariant closeDue <==> exists u <- was :: u !in rest && IsUnanswered(was[u], now)
      {
        var u :| u in rest;
        rest := rest - {u};
        if IsOverdue(was[u], now) {
          utterances := utterances[u := Expired(was[u], now)];
          overdue := overdue + {u};
        } else if IsUnanswered(was[u], now) {
          closeDue := true;
        }
      }
      assert utterances == Swept(was, now);
    }

    method Poll(now: Ns) returns (alarm: Alarm)
      modifies this
      ensures Polled(View(), alarm) == W.Poll(old(View()), now)
    {
      match phase {
        case ClosePending(deadline) =>
          if now < deadline { return Cancel({}); }
          phase := RestartIssued;
          return RestartSidecar;
        case Active =>
          var overdue, closeDue := Sweep(now);
          if closeDue {
            phase := ClosePending(SaturatingAdd(now, CLOSE_ACK_NS));
            return CloseSession;
          }
          return Cancel(overdue);
        case _ => return Cancel({});
      }
    }
  }
}
