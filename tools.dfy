/** The tool buttons of the control panel: a region screenshot, a colour
    picker whose result is posted as a notification, and the silent-mode
    toggle whose style follows the notification service. */
module Tools {
  import opened Common
  import opened Notifications

  const ScreenshotCommand := "hyprshot -m region"
  const PickerCommand := "hyprpicker"
  const SilentModeClass := "silent-mode-on"
  const ToolButtonClass := "tool-button"

  const BodyOpen := "<span color='"
  const BodyMiddle := "' font-size='200%'>"
  const BodyClose := "</span>"

  /** The notification body for a picked colour: Pango markup that shows
      the colour's name in that colour, at twice the normal size. */
  function PickerBody(color: string): (body: string)
    ensures BodyOpen <= body
    ensures |body| == |BodyOpen| + |BodyMiddle| + |BodyClose| + 2 * |color|
  {
    BodyOpen + color + BodyMiddle + color + BodyClose
  }

  /** The colour is found again right after the opening markup. */
  lemma ColorFromBody(color: string)
    ensures var body := PickerBody(color);
      var n := (|body| - |BodyOpen| - |BodyMiddle| - |BodyClose|) / 2;
      body[|BodyOpen|..|BodyOpen| + n] == color
  {
  }

  /** Different colours give different bodies. */
  lemma PickerBodyInjective(c: string, d: string)
    requires PickerBody(c) == PickerBody(d)
    ensures c == d
  {
    ColorFromBody(c);
    ColorFromBody(d);
  }

  /** The notification posted for a picked colour. */
  function PickerNotification(color: string): (n: NotificationArgs)
    ensures n.appName == "HyprPicker" && n.summary == "Color:" && n.appIcon == ""
    ensures n.body == PickerBody(color)
    ensures n.replacesId == -1 && n.timeout == -1 && n.urgency == 1
    ensures n.actions == [] && n.hints == []
  {
    NotificationArgs("HyprPicker", -1, "", "Color:", PickerBody(color), [], [], -1, 1)
  }

  class ScreenshotTool {
    constructor () {}

    /** The button starts a region screenshot and does not wait for it. */
    method OnClicked(process: Process)
      requires !process.exited
      modifies process
      ensures process.commands == old(process.commands) + [ScreenshotCommand]
      ensures !process.exited
    {
      process.ExecShellCommandAsync(ScreenshotCommand);
    }
  }

  class HyprPickerTool {
    const service: NotificationService

    constructor (service: NotificationService)
      ensures this.service == service
    {
      this.service := service;
    }

    /** `on_clicked`: the picker runs without waiting; its output reaches
        `SendNotification` through the command's callback. */
    method OnClicked(process: Process)
      requires !process.exited
      modifies process
      ensures process.commands == old(process.commands) + [PickerCommand]
      ensures !process.exited
    {
      process.ExecShellCommandAsync(PickerCommand);
    }

    /** `send_notification`, with `id` the id the service hands out. */
    method SendNotification(color: string, id: nat)
      requires service.Valid()
      modifies service
      ensures service.Valid()
      ensures service.notifications == old(service.notifications)[id := Notification(id, PickerNotification(color))]
      ensures service.signals == old(service.signals) + [NotificationAdded(id)]
      ensures service.isSilenced == old(service.isSilenced)
    {
      var args := NotificationArgs("HyprPicker", -1, "", "Color:",
        BodyOpen + color + BodyMiddle + color + BodyClose, [], [], -1, 1);
      service.SendInternalNotification(args, id);
    }
  }

  class SilentModeToggle {
    const service: NotificationService
    var styleClasses: set<string>

    constructor (service: NotificationService)
      ensures this.service == service
      ensures styleClasses == {ToolButtonClass}
    {
      this.service := service;
      styleClasses := {ToolButtonClass};
    }

    /** `on_clicked`: silent mode flips, and afterwards the button carries
        the silent-mode style exactly when silent mode is on, whatever it
        carried before; its other style classes are kept. */
    method OnClicked()
      requires service.Valid()
      modifies this, service
      ensures service.Valid()
      ensures service.isSilenced == !old(service.isSilenced)
      ensures service.signals == old(service.signals) + [SilentModeChanged(service.isSilenced)]
      ensures service.notifications == old(service.notifications)
      ensures SilentModeClass in styleClasses <==> service.isSilenced
      ensures styleClasses - {SilentModeClass} == old(styleClasses) - {SilentModeClass}
    {
      service.ToggleSilentMode();
      if service.isSilenced {
        styleClasses := styleClasses + {SilentModeClass};
      } else {
        styleClasses := styleClasses - {SilentModeClass};
      }
    }
  }
}
