/** The runner's list entry for one application (`AppElement`): a button
    whose content box shows the app's icon, if one was loaded, and its name;
    a click launches the app with `gtk-launch` and ends the runner. */
module AppElements {
  import opened Common
  import opened DesktopEntry

  /** Longest name the label shows before fabric's `truncate` shortens it. */
  const NameLimit := 24

  /** A child of the element's content box. `NameLabel(name, limit)` is the
      label given `truncate(name, limit)`; the name may be missing, and what
      `truncate` then does belongs to that helper, not to this model. */
  datatype Child = IconImage(pixbuf: Pixbuf) | NameLabel(name: Option<string>, limit: nat)

  const LaunchPrefix := "gtk-launch "
  const LaunchSuffix := " & disown"

  /** The shell command a click runs: `gtk-launch`, given the entry's file
      name with its `.desktop` extension (not the stem), detached from the
      runner. */
  function LaunchCommand(path: Path): (command: string)
    ensures LaunchPrefix <= command
    ensures |command| == |LaunchPrefix| + |path.name| + |LaunchSuffix|
  {
    LaunchPrefix + path.name + LaunchSuffix
  }

  /** The file name is recovered from the command between the fixed prefix
      and suffix, so two different file names never give the same
      command. */
  lemma LaunchCommandNamesFile(path: Path)
    ensures LaunchCommand(path)[|LaunchPrefix|..|LaunchCommand(path)| - |LaunchSuffix|] == path.name
  {
  }

  lemma LaunchCommandInjective(p: Path, q: Path)
    requires LaunchCommand(p) == LaunchCommand(q)
    ensures p.name == q.name
  {
    LaunchCommandNamesFile(p);
    LaunchCommandNamesFile(q);
  }

  class AppElement {
    const app: DesktopApp
    /** The children of the content box, in the order they were added. */
    var box: seq<Child>

    /** `AppElement.__init__`: the icon image is added first, and only when
        an icon image was loaded; the name label always follows. */
    constructor (app: DesktopApp)
      ensures this.app == app
      ensures app.iconPixbuf.Some? ==> box == [IconImage(app.iconPixbuf.value), NameLabel(app.name, NameLimit)]
      ensures app.iconPixbuf.None? ==> box == [NameLabel(app.name, NameLimit)]
    {
      this.app := app;
      box := [];
      new;
      if app.iconPixbuf.Some? {
        box := box + [IconImage(app.iconPixbuf.value)];
      }
      box := box + [NameLabel(app.name, NameLimit)];
    }

    /** `on_clicked`: the launch command is issued once, then the process
        exits. */
    method OnClicked(process: Process)
      requires !process.exited
      modifies process
      ensures process.commands == old(process.commands) + [LaunchCommand(app.path)]
      ensures process.exited
    {
      process.ExecShellCommandAsync(LaunchPrefix + app.path.name + LaunchSuffix);
      process.Exit();
    }
  }
}
