/** Shared vocabulary of the shell and the runner: optional values, error
    results, filesystem paths, label texts, icon glyphs and the process's
    outward effects (shell commands launched, exit). */
module Common {

  datatype Option<+T> = None | Some(value: T)

  datatype Result<+T, +E> = Ok(value: T) | Err(error: E)

  /** A filesystem path: the directories leading to it and its final
      component (Python's `Path.name`, extension included). */
  datatype Path = Path(dirs: seq<string>, name: string)

  /** What a label is given to display. `Truncated(s, n)` stands for the
      result of fabric's `truncate(s, n)`, a helper whose source is not part
      of this model: the model records its arguments, not its output. */
  datatype Text = Full(s: string) | Truncated(s: string, limit: nat)

  /** The glyphs of the icon font the widgets switch between; only their
      identity matters here, not their code points. */
  datatype Icon =
    | BluetoothOn | BluetoothOff | BluetoothPaired | BluetoothUnpaired
    | Link | LinkOff | LinkAdd | Search | SearchOff
    | Play | Pause | Speaker | Headphones | VolumeMuted | VolumeHigh

  /** Index of the first occurrence of `x` in `s` (Python's `list.index`
      and `str.index` when the element is present). */
  function FirstIndex<T(==)>(s: seq<T>, x: T): (i: nat)
    requires x in s
    ensures i < |s| && s[i] == x
    ensures x !in s[..i]
  {
    if s[0] == x then 0
    else
      var j := FirstIndex(s[1..], x);
      assert s[1..][..j] == s[1..j + 1];
      1 + j
  }

  /** The effects a handler has on the process it runs in: shell commands
      handed to `exec_shell_command_async` (which does not wait for them)
      and a call to `exit(0)`, after which nothing else runs. */
  class Process {
    var commands: seq<string>
    var exited: bool

    constructor ()
      ensures commands == [] && !exited
    {
      commands := [];
      exited := false;
    }

    method ExecShellCommandAsync(command: string)
      requires !exited
      modifies this
      ensures commands == old(commands) + [command] && !exited
    {
      commands := commands + [command];
    }

    method Exit()
      requires !exited
      modifies this
      ensures exited && commands == old(commands)
    {
      exited := true;
    }
  }
}
