/** The runner window (`Runner`): it lists every desktop entry matched by
    `*.desktop` in the applications directory, in the order the glob gives
    them, one `AppElement` per entry, and closes on Escape. The glob and
    path resolution are filesystem calls and arrive here as their results. */
module Runner {
  import opened Common
  import opened DesktopEntry
  import opened AppElements

  /** Key value of Escape in GDK. */
  const EscapeKeyCode := 65307

  /** One result of `APPLICATION_DIR.glob("*.desktop")`: the matched path,
      whether it is a regular file, and what `resolve()` makes of it. */
  datatype GlobMatch = GlobMatch(path: Path, isFile: bool, resolved: Path)

  /** What the key-press handler does: exit the process, or return `False`
      so that GTK passes the event on. */
  datatype KeyOutcome = ExitProcess | NotHandled

  function OnKeyPress(keyval: int): (r: KeyOutcome)
    ensures r == ExitProcess <==> keyval == EscapeKeyCode
    ensures r != ExitProcess ==> r == NotHandled
  {
    if keyval == EscapeKeyCode then ExitProcess else NotHandled
  }

  /** `get_app_paths`: one resolved path per match, in glob order; `None`
      as soon as a match is not a regular file, dropping the paths already
      collected. */
  method GetAppPaths(matches: seq<GlobMatch>) returns (paths: Option<seq<Path>>)
    ensures paths.None? <==> exists i :: 0 <= i < |matches| && !matches[i].isFile
    ensures paths.Some? ==> |paths.value| == |matches|
    ensures paths.Some? ==> forall i :: 0 <= i < |matches| ==> paths.value[i] == matches[i].resolved
  {
    var collected := [];
    for i := 0 to |matches|
      invariant |collected| == i
      invariant forall j :: 0 <= j < i ==> matches[j].isFile && collected[j] == matches[j].resolved
    {
      if !matches[i].isFile {
        return None;
      }
      collected := collected + [matches[i].resolved];
    }
    return Some(collected);
  }

  /** The ways building the app list fails: `get_desktop_apps` iterating the
      `None` that `get_app_paths` returned (a `TypeError`), `from_path`
      raising on a file it cannot read or decode, or an element built from
      the `None` that `from_path` gave for a path that no longer exists (an
      `AttributeError`). */
  datatype RunnerError = PathsNotIterable | ReadFailed(path: Path) | EntryMissing(path: Path)

  /** The list comprehension of `get_desktop_apps`: the `from_path` results
      in path order, or the exception of the first path that cannot be read,
      which ends the comprehension. */
  function ReadEntries(files: Files, paths: seq<Path>,
                       loadIcon: (string, nat, nat) -> Option<Pixbuf>): (r: Result<seq<Option<DesktopApp>>, RunnerError>)
    ensures r.Ok? <==> forall i | 0 <= i < |paths| :: !IsUnreadable(files, paths[i])
    ensures r.Err? ==> exists i | 0 <= i < |paths| ::
      r.error == ReadFailed(paths[i]) && IsUnreadable(files, paths[i]) &&
      forall j | 0 <= j < i :: !IsUnreadable(files, paths[j])
    ensures r.Ok? ==> |r.value| == |paths|
    ensures r.Ok? ==> forall i | 0 <= i < |paths| :: Ok(r.value[i]) == EntryAt(files, paths[i], loadIcon)
    decreases |paths|
  {
    if paths == [] then Ok([])
    else match EntryAt(files, paths[0], loadIcon)
      case Err(p) => Err(ReadFailed(p))
      case Ok(app) =>
        match ReadEntries(files, paths[1..], loadIcon)
        case Err(e) => Err(e)
        case Ok(rest) => Ok([app] + rest)
  }

  /** `get_desktop_apps`: iterating a missing path list is an error;
      otherwise the comprehension over the paths. */
  function GetDesktopApps(files: Files, paths: Option<seq<Path>>,
                          loadIcon: (string, nat, nat) -> Option<Pixbuf>): (r: Result<seq<Option<DesktopApp>>, RunnerError>)
    ensures paths.None? ==> r == Err(PathsNotIterable)
    ensures paths.Some? ==> r == ReadEntries(files, paths.value, loadIcon)
  {
    if paths.None? then Err(PathsNotIterable) else ReadEntries(files, paths.value, loadIcon)
  }

  /** `get_app_elements`: the app list of the runner, one element per app
      in path order, or the exception that stops the runner. Every entry is
      read before the first element is built, so a file that cannot be read
      stops the runner even when an earlier path has gone missing. */
  method GetAppElements(matches: seq<GlobMatch>, files: Files,
                        loadIcon: (string, nat, nat) -> Option<Pixbuf>)
    returns (r: Result<seq<AppElement>, RunnerError>)
    ensures r.Ok? <==> (forall i | 0 <= i < |matches| ::
      matches[i].isFile && matches[i].resolved in files && files[matches[i].resolved].Lines?)
    ensures r.Err? && r.error == PathsNotIterable <==> exists i | 0 <= i < |matches| :: !matches[i].isFile
    ensures r.Err? && r.error.ReadFailed? <==>
      (forall i | 0 <= i < |matches| :: matches[i].isFile) &&
      (exists i | 0 <= i < |matches| :: IsUnreadable(files, matches[i].resolved))
    ensures r.Err? && r.error.ReadFailed? ==> exists i | 0 <= i < |matches| ::
      r.error.path == matches[i].resolved && IsUnreadable(files, matches[i].resolved) &&
      forall j | 0 <= j < i :: !IsUnreadable(files, matches[j].resolved)
    ensures r.Err? && r.error.EntryMissing? ==> exists i | 0 <= i < |matches| ::
      r.error.path == matches[i].resolved && matches[i].resolved !in files
    ensures r.Ok? ==> |r.value| == |matches|
    ensures r.Ok? ==> forall i | 0 <= i < |matches| ::
      fresh(r.value[i]) && Ok(Some(r.value[i].app)) == EntryAt(files, matches[i].resolved, loadIcon)
  {
    var paths := GetAppPaths(matches);
    var apps := GetDesktopApps(files, paths, loadIcon);
    if apps.Err? {
      return Err(apps.error);
    }
    var elements: seq<AppElement> := [];
    for i := 0 to |apps.value|
      invariant |elements| == i
      invariant forall j | 0 <= j < i :: matches[j].resolved in files
      invariant forall j | 0 <= j < i ::
        fresh(elements[j]) && Ok(Some(elements[j].app)) == EntryAt(files, matches[j].resolved, loadIcon)
    {
      if apps.value[i].None? {
        return Err(EntryMissing(matches[i].resolved));
      }
      var element := new AppElement(apps.value[i].value);
      elements := elements + [element];
    }
    return Ok(elements);
  }
}
