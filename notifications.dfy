/** The shell's notification service (`NotificationService`): a silent
    mode that listeners follow through the "silent-mode-changed" signal,
    and notifications the shell adds itself, next to those received over
    D-Bus. Fabric's D-Bus notification server is not part of this model;
    only the table of notifications and the signals this class emits are. */
module Notifications {

  /** The arguments of a notification, with the types of the D-Bus
      signature `(sisssasasiu)`: application name, id it replaces, icon,
      summary, body, actions, hints, timeout and urgency. */
  datatype NotificationArgs = NotificationArgs(
    appName: string,
    replacesId: int,
    appIcon: string,
    summary: string,
    body: string,
    actions: seq<string>,
    hints: seq<string>,
    timeout: int,
    urgency: nat)

  datatype Notification = Notification(id: nat, args: NotificationArgs)

  /** The signals emitted, in order: "silent-mode-changed" with the new
      mode and "notification-added" with the new id. */
  datatype Signal = SilentModeChanged(isSilenced: bool) | NotificationAdded(id: nat)

  /** The mode carried by the last "silent-mode-changed" signal, or
      `initial` when none was emitted. */
  function LastSilentMode(signals: seq<Signal>, initial: bool): (b: bool)
    ensures (forall s | s in signals :: !s.SilentModeChanged?) ==> b == initial
    ensures signals != [] && signals[|signals| - 1].SilentModeChanged? ==>
      b == signals[|signals| - 1].isSilenced
  {
    if signals == [] then initial
    else if signals[|signals| - 1].SilentModeChanged? then signals[|signals| - 1].isSilenced
    else LastSilentMode(signals[..|signals| - 1], initial)
  }

  /** A signal that is not a mode change leaves the mode listeners know as
      it was. */
  lemma {:induction false} LastSilentModeSkips(signals: seq<Signal>, initial: bool, id: nat)
    ensures LastSilentMode(signals + [NotificationAdded(id)], initial) == LastSilentMode(signals, initial)
  {
  }

  class NotificationService {
    var isSilenced: bool
    var notifications: map<nat, Notification>
    var signals: seq<Signal>

    /** Listeners that follow "silent-mode-changed" know the current mode
        (silent mode starts off); every notification is stored under its
        own id, and every added id was stored. */
    predicate Valid()
      reads this
    {
      && isSilenced == LastSilentMode(signals, false)
      && (forall id | id in notifications :: notifications[id].id == id)
      && (forall s | s in signals && s.NotificationAdded? :: s.id in notifications)
    }

    constructor ()
      ensures Valid()
      ensures !isSilenced && notifications == map[] && signals == []
    {
      isSilenced := false;
      notifications := map[];
      signals := [];
    }

    /** `toggle_silent_mode`: the mode flips and the new mode is emitted. */
    method ToggleSilentMode()
      requires Valid()
      modifies this
      ensures Valid()
      ensures isSilenced == !old(isSilenced)
      ensures signals == old(signals) + [SilentModeChanged(isSilenced)]
      ensures notifications == old(notifications)
    {
      isSilenced := !isSilenced;
      signals := signals + [SilentModeChanged(isSilenced)];
    }

    /** `send_internal_notification`, with `id` the result of fabric's
        `new_notification_id`: the notification is stored under that id,
        replacing any stored there, and its id is emitted. */
    method SendInternalNotification(args: NotificationArgs, id: nat)
      requires Valid()
      modifies this
      ensures Valid()
      ensures notifications == old(notifications)[id := Notification(id, args)]
      ensures signals == old(signals) + [NotificationAdded(id)]
      ensures isSilenced == old(isSilenced)
    {
      LastSilentModeSkips(signals, false, id);
      notifications := notifications[id := Notification(id, args)];
      signals := signals + [NotificationAdded(id)];
    }
  }
}
