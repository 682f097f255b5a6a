/** The volume on-screen display (`VolumeOSD`): on every volume change it
    shows the new volume and (re)starts a one-shot GLib timeout that hides
    it again. GLib's main loop is modelled by the set of timeout sources it
    still has pending; time itself and the delay are not modelled. */
module Osd {
  import opened Common

  /** The window's timeout id and the timeout sources GLib has pending. */
  datatype Timer = Timer(timeoutId: Option<nat>, pending: set<nat>)

  const NoTimer := Timer(None, {})

  /** GLib hands out positive source ids that are not in use. */
  predicate FreshId(t: Timer, id: nat) {
    id > 0 && id !in t.pending
  }

  /** The timeout id names the one pending hide, and there is none without
      it. */
  predicate Tracks(t: Timer) {
    if t.timeoutId.None? then t.pending == {} else t.pending == {t.timeoutId.value}
  }

  /** The next volume change would ask GLib to remove a source it no longer
      has (GLib reports this as a critical warning). */
  predicate RemovesStale(t: Timer) {
    t.timeoutId.Some? && t.timeoutId.value !in t.pending
  }

  /** The timer part of `on_notify_volume`: the source the window knows of
      is removed and the id of the new one is kept. */
  function Rearm(t: Timer, newId: nat): (r: Timer)
    requires FreshId(t, newId)
    ensures r.timeoutId == Some(newId) && newId in r.pending
    ensures t.timeoutId.Some? && t.timeoutId.value != newId ==> t.timeoutId.value !in r.pending
    ensures r.pending - {newId} <= t.pending
  {
    var kept := if t.timeoutId.Some? then t.pending - {t.timeoutId.value} else t.pending;
    Timer(Some(newId), kept + {newId})
  }

  /** `on_timeout_expired` as written: it returns `False`, so GLib drops the
      source, but the window keeps its id. */
  function ExpireAsWritten(t: Timer, id: nat): (r: Timer)
    requires id in t.pending
    ensures r.timeoutId == t.timeoutId && id !in r.pending
  {
    Timer(t.timeoutId, t.pending - {id})
  }

  /** `on_timeout_expired` as evidently intended: the id is forgotten
      together with the source. */
  function Expire(t: Timer, id: nat): (r: Timer)
    requires id in t.pending
    ensures r.timeoutId.None? && id !in r.pending
  {
    Timer(None, t.pending - {id})
  }

  /** With the intended expiry, the window always tracks its single pending
      hide, so it never removes a source GLib does not have. */
  lemma TimerTracksPending(t: Timer, newId: nat, id: nat)
    requires Tracks(t)
    ensures !RemovesStale(t) && |t.pending| <= 1
    ensures FreshId(t, newId) ==> Tracks(Rearm(t, newId))
    ensures id in t.pending ==> Tracks(Expire(t, id))
  {
  }

  /** As written: one volume change, then the hide firing, leaves an id
      whose source is gone; the next volume change removes it again. */
  lemma ExpireAsWrittenLeavesStaleId()
    ensures var t := ExpireAsWritten(Rearm(NoTimer, 1), 1);
      RemovesStale(t) && !Tracks(t) && FreshId(t, 2)
  {
  }

  class VolumeOsd {
    var visible: bool
    /** The value the volume scale animates to. */
    var scaleValue: real
    var timeoutId: Option<nat>
    /** The hide timeouts GLib has pending for this window. */
    var pending: set<nat>

    function TimerState(): Timer
      reads this
    {
      Timer(timeoutId, pending)
    }

    predicate Valid()
      reads this
    {
      Tracks(TimerState())
    }

    /** `VolumeOSD.__init__`: hidden, no timeout, the scale at the service's
        volume. */
    constructor (volume: real)
      ensures Valid()
      ensures !visible && scaleValue == volume && TimerState() == NoTimer
    {
      visible := false;
      scaleValue := volume;
      timeoutId := None;
      pending := {};
    }

    /** `on_notify_volume`, with `newId` the id `GLib.timeout_add` returns:
        the pending hide is cancelled, the new volume shown and a new hide
        scheduled. */
    method OnNotifyVolume(volume: real, newId: nat)
      requires Valid() && FreshId(TimerState(), newId)
      modifies this
      ensures Valid()
      ensures visible && scaleValue == volume
      ensures TimerState() == Rearm(old(TimerState()), newId)
      ensures pending == {newId}
    {
      if timeoutId.Some? {
        pending := pending - {timeoutId.value};
        timeoutId := None;
      }
      scaleValue := volume;
      visible := true;
      timeoutId := Some(newId);
      pending := pending + {newId};
      TimerTracksPending(old(TimerState()), newId, newId);
    }

    /** The pending hide fires: the window is hidden and `false` ends the
        source. The id is cleared as well (see the finding on
        `ExpireAsWritten`). */
    method OnTimeoutExpired(id: nat) returns (repeat: bool)
      requires Valid() && id in pending
      modifies this
      ensures Valid()
      ensures !visible && !repeat
      ensures scaleValue == old(scaleValue)
      ensures TimerState() == Expire(old(TimerState()), id)
      ensures pending == {} && timeoutId.None?
    {
      visible := false;
      pending := pending - {id};
      timeoutId := None;
      TimerTracksPending(old(TimerState()), id, id);
      return false;
    }
  }
}
