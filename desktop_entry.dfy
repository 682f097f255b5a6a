/** The runner's desktop-entry reader (`DesktopApp.from_path`): a line scan
    over `Key=Value` lines that keeps the last `Name` and `Icon` values seen
    and stops as soon as both are known. It reads a small subset of the
    freedesktop.org Desktop Entry Specification: no group headers, no
    localised keys, no escapes. */
module DesktopEntry {
  import opened Common

  /** The characters Python's `str.rstrip()` removes: those for which
      `str.isspace()` holds. */
  predicate IsSpace(c: char) {
    || c == ' ' || c == '\t' || c == '\n' || c == '\r'
    || c == '\U{0B}' || c == '\U{0C}'
    || c == '\U{1C}' || c == '\U{1D}' || c == '\U{1E}' || c == '\U{1F}'
    || c == '\U{85}' || c == '\U{A0}' || c == '\U{1680}'
    || ('\U{2000}' <= c <= '\U{200A}')
    || c == '\U{2028}' || c == '\U{2029}' || c == '\U{202F}' || c == '\U{205F}'
    || c == '\U{3000}'
  }

  /** `line.rstrip()`: the longest prefix of `s` that does not end in
      whitespace, all of whose removed characters are whitespace. */
  function RStrip(s: string): (r: string)
    ensures r <= s
    ensures r == [] || !IsSpace(r[|r| - 1])
    ensures forall i | |r| <= i < |s| :: IsSpace(s[i])
    decreases |s|
  {
    if s != [] && IsSpace(s[|s| - 1]) then RStrip(s[..|s| - 1]) else s
  }

  /** `line.split("=", maxsplit=1)` seen through the check that it gave two
      components: `None` when the line holds no `=`, otherwise the text
      before the first `=` and everything after it. */
  function SplitAtFirst(line: string): (r: Option<(string, string)>)
    ensures r.None? <==> '=' !in line
    ensures r.Some? ==> '=' !in r.value.0 && line == r.value.0 + "=" + r.value.1
  {
    if '=' !in line then None
    else
      var i := FirstIndex(line, '=');
      assert line == line[..i] + "=" + line[i + 1..];
      Some((line[..i], line[i + 1..]))
  }

  /** Splitting is at the FIRST `=` only: a key without `=` is recovered
      exactly, and the value keeps any `=` it contains. */
  lemma SplitRecoversKeyAndValue(key: string, value: string)
    requires '=' !in key
    ensures SplitAtFirst(key + "=" + value) == Some((key, value))
  {
    var line := key + "=" + value;
    var r := SplitAtFirst(line);
    var k := r.value.0;
    assert line[|key|] == '=';
    assert k == line[..|k|] == key;
    assert r.value.1 == line[|k| + 1..] == value;
  }

  /** The two accumulators of the scan (`name` and `icon`), `None` until a
      line sets them. */
  datatype Fields = Fields(name: Option<string>, icon: Option<string>)

  const NoFields := Fields(None, None)

  /** The early-stop condition: both fields found. */
  predicate Complete(f: Fields) {
    f.name.Some? && f.icon.Some?
  }

  /** Record one `key=value` pair: only the exact keys `Name` and `Icon`
      are kept; a repeated key overwrites. */
  function Record(f: Fields, key: string, value: string): Fields {
    if key == "Name" then f.(name := Some(value))
    else if key == "Icon" then f.(icon := Some(value))
    else f
  }

  /** The effect of one line, without the early stop. */
  function Step(f: Fields, line: string): Fields {
    match SplitAtFirst(RStrip(line))
    case None => f
    case Some((key, value)) => Record(f, key, value)
  }

  /** The scan of `from_path`, line by line from `f`: a line without `=` is
      skipped before the stop test; any other line is recorded and the scan
      stops when both fields are then known. */
  function Scan(lines: seq<string>, f: Fields): Fields
    decreases |lines|
  {
    if lines == [] then f
    else
      match SplitAtFirst(RStrip(lines[0]))
      case None => Scan(lines[1..], f)
      case Some((key, value)) =>
        var g := Record(f, key, value);
        if Complete(g) then g else Scan(lines[1..], g)
  }

  /** Reference reading without any stop: every line applied in order. */
  function Fold(lines: seq<string>): Fields
    decreases |lines|
  {
    if lines == [] then NoFields
    else Step(Fold(lines[..|lines| - 1]), lines[|lines| - 1])
  }

  /** The first prefix length, from `k` on, at which the non-stopping
      reading has found both fields, or the whole file. */
  function StopAt(lines: seq<string>, k: nat): (r: nat)
    requires k <= |lines|
    ensures k <= r <= |lines|
    ensures r == |lines| || Complete(Fold(lines[..r]))
    ensures forall j | k <= j < r :: !Complete(Fold(lines[..j]))
    decreases |lines| - k
  {
    if k == |lines| || Complete(Fold(lines[..k])) then k else StopAt(lines, k + 1)
  }

  /** The value of the last `key=` line of `lines`, if any. */
  function LastValue(lines: seq<string>, key: string): Option<string>
    decreases |lines|
  {
    if lines == [] then None
    else
      match SplitAtFirst(RStrip(lines[|lines| - 1]))
      case Some((k, v)) => if k == key then Some(v) else LastValue(lines[..|lines| - 1], key)
      case None => LastValue(lines[..|lines| - 1], key)
  }

  lemma {:induction false} ScanFrom(lines: seq<string>, i: nat)
    requires i <= |lines|
    requires forall j | 0 <= j <= i :: !Complete(Fold(lines[..j]))
    ensures Scan(lines[i..], Fold(lines[..i])) == Fold(lines[..StopAt(lines, i)])
    decreases |lines| - i
  {
    if i < |lines| {
      var f := Fold(lines[..i]);
      assert lines[..i + 1][..i] == lines[..i];
      assert Fold(lines[..i + 1]) == Step(f, lines[i]);
      assert lines[i..][0] == lines[i] && lines[i..][1..] == lines[i + 1..];
      match SplitAtFirst(RStrip(lines[i]))
      case None =>
        ScanFrom(lines, i + 1);
      case Some((key, value)) =>
        if !Complete(Record(f, key, value)) {
          ScanFrom(lines, i + 1);
        }
    } else {
      assert lines[..i] == lines;
    }
  }

  /** The scan returns exactly what reading every line would give on the
      prefix that ends at the first line after which both fields are known
      (the whole file if that never happens). */
  lemma ScanIsFoldUpToStop(lines: seq<string>)
    ensures Scan(lines, NoFields) == Fold(lines[..StopAt(lines, 0)])
  {
    assert lines[0..] == lines && lines[..0] == [];
    ScanFrom(lines, 0);
  }

  lemma {:induction false} FoldIsLastValues(lines: seq<string>)
    ensures Fold(lines) == Fields(LastValue(lines, "Name"), LastValue(lines, "Icon"))
    decreases |lines|
  {
    if lines != [] {
      FoldIsLastValues(lines[..|lines| - 1]);
    }
  }

  /** Before the stop, a repeated `Name` or `Icon` line overwrites the
      earlier one: each field holds the last value given to it up to the
      stop, and `None` for a key never seen. */
  lemma ScanKeepsLastValueBeforeStop(lines: seq<string>)
    ensures var prefix := lines[..StopAt(lines, 0)];
      Scan(lines, NoFields) == Fields(LastValue(prefix, "Name"), LastValue(prefix, "Icon"))
  {
    ScanIsFoldUpToStop(lines);
    FoldIsLastValues(lines[..StopAt(lines, 0)]);
  }

  /** Once the scan has stopped, lines after the stop cannot change the
      record. */
  lemma {:induction false} LaterLinesIgnored(lines: seq<string>, more: seq<string>, f: Fields)
    requires !Complete(f)
    requires Complete(Scan(lines, f))
    ensures Scan(lines + more, f) == Scan(lines, f)
    decreases |lines|
  {
    assert lines != [];
    assert (lines + more)[0] == lines[0] && (lines + more)[1..] == lines[1..] + more;
    match SplitAtFirst(RStrip(lines[0]))
    case None =>
      LaterLinesIgnored(lines[1..], more, f);
    case Some((key, value)) =>
      var g := Record(f, key, value);
      if !Complete(g) {
        LaterLinesIgnored(lines[1..], more, g);
      }
  }

  /** A line that holds no `=` is skipped and changes nothing. */
  lemma LineWithoutSeparatorSkipped(f: Fields, line: string, rest: seq<string>)
    requires '=' !in line
    ensures Step(f, line) == f
    ensures Scan([line] + rest, f) == Scan(rest, f)
  {
  }

  /** Only the exact keys are recorded: the name changes exactly on a line
      that reads `Name=` after right-stripping (so neither `Name[de]=` nor
      ` Name=` counts), and takes the rest of that line as its value. */
  lemma NameOnlyFromExactKey(f: Fields, line: string)
    ensures "Name=" <= RStrip(line) ==> Step(f, line).name == Some(RStrip(line)[5..])
    ensures !("Name=" <= RStrip(line)) ==> Step(f, line).name == f.name
  {
    var s := RStrip(line);
    if "Name=" <= s {
      assert s == "Name" + "=" + s[5..];
      SplitRecoversKeyAndValue("Name", s[5..]);
    }
  }

  /** The same rule for the icon. */
  lemma IconOnlyFromExactKey(f: Fields, line: string)
    ensures "Icon=" <= RStrip(line) ==> Step(f, line).icon == Some(RStrip(line)[5..])
    ensures !("Icon=" <= RStrip(line)) ==> Step(f, line).icon == f.icon
  {
    var s := RStrip(line);
    if "Icon=" <= s {
      assert s == "Icon" + "=" + s[5..];
      SplitRecoversKeyAndValue("Icon", s[5..]);
    }
  }

  /** An empty value counts as found: with the name known, a bare `Icon=`
      line ends the scan with the empty icon name. */
  lemma EmptyIconEndsScan(name: string, rest: seq<string>)
    ensures Scan(["Icon="] + rest, Fields(Some(name), None)) == Fields(Some(name), Some(""))
  {
  }

  /** An opaque handle on a decoded icon image. */
  datatype Pixbuf = Pixbuf(handle: nat)

  const IconWidth := 50
  const IconHeight := 50

  /** The runner's record of one application. The icon name itself is not
      kept: only the image the icon theme gives for it at 50x50. */
  datatype DesktopApp = DesktopApp(name: Option<string>, path: Path, iconPixbuf: Option<Pixbuf>)

  /** `DesktopApp.__init__`: the icon is looked up (by `loadIcon`, which
      stands for the GTK icon theme and may fail) only when an icon name
      was found. */
  function NewDesktopApp(name: Option<string>, path: Path, icon: Option<string>,
                         loadIcon: (string, nat, nat) -> Option<Pixbuf>): (app: DesktopApp)
    ensures app.name == name && app.path == path
    ensures icon.None? ==> app.iconPixbuf.None?
    ensures icon.Some? ==> app.iconPixbuf == loadIcon(icon.value, IconWidth, IconHeight)
  {
    DesktopApp(name, path, if icon.Some? then loadIcon(icon.value, IconWidth, IconHeight) else None)
  }

  /** What opening and reading a path that exists gives: the lines
      `readlines()` returns, or the exception `open`/`readlines` raise for a
      file that cannot be read (a `PermissionError`) or decoded in the
      locale's encoding (a `UnicodeDecodeError`). */
  datatype Content = Lines(lines: seq<string>) | Unreadable

  /** The filesystem: the paths that exist and what reading each gives. */
  type Files = map<Path, Content>

  predicate IsUnreadable(files: Files, path: Path) {
    path in files && files[path].Unreadable?
  }

  /** What `from_path` gives for `path`: `Err` for the exception reading
      raises, `Ok(None)` for a path that does not exist, otherwise the
      record built from the scanned fields. */
  function EntryAt(files: Files, path: Path,
                   loadIcon: (string, nat, nat) -> Option<Pixbuf>): Result<Option<DesktopApp>, Path>
  {
    if path !in files then Ok(None)
    else match files[path]
      case Unreadable => Err(path)
      case Lines(lines) =>
        var f := Scan(lines, NoFields);
        Ok(Some(NewDesktopApp(f.name, path, f.icon, loadIcon)))
  }

  /** The loop of `from_path`: each line right-stripped and split at its
      first `=`; `Name` and `Icon` recorded; stop once both are known. */
  method ReadFields(lines: seq<string>) returns (name: Option<string>, icon: Option<string>)
    ensures Fields(name, icon) == Scan(lines, NoFields)
  {
    name, icon := None, None;
    var i := 0;
    while i < |lines|
      invariant 0 <= i <= |lines|
      invariant !Complete(Fields(name, icon))
      invariant Scan(lines[i..], Fields(name, icon)) == Scan(lines, NoFields)
    {
      assert lines[i..][0] == lines[i] && lines[i..][1..] == lines[i + 1..];
      var line := RStrip(lines[i]);
      var components := SplitAtFirst(line);
      if components.None? {
        i := i + 1;
        continue;
      }
      var (prop, value) := components.value;
      if prop == "Name" {
        name := Some(value);
      } else if prop == "Icon" {
        icon := Some(value);
      }
      if name.Some? && icon.Some? {
        break;
      }
      i := i + 1;
    }
  }

  /** `DesktopApp.from_path`: `None` for a path that does not exist, the
      exception for a file that cannot be read, otherwise the record built
      from the scanned fields. */
  method FromPath(files: Files, path: Path,
                  loadIcon: (string, nat, nat) -> Option<Pixbuf>) returns (app: Result<Option<DesktopApp>, Path>)
    ensures app == EntryAt(files, path, loadIcon)
    ensures app.Err? <==> IsUnreadable(files, path)
    ensures app.Err? ==> app.error == path
    ensures app.Ok? && app.value.None? <==> path !in files
    ensures app.Ok? && app.value.Some? ==>
      var f := Scan(files[path].lines, NoFields);
      app.value.value.path == path && app.value.value.name == f.name
  {
    if path !in files {
      return Ok(None);
    }
    if files[path].Unreadable? {
      return Err(path);
    }
    var name, icon := ReadFields(files[path].lines);
    app := Ok(Some(NewDesktopApp(name, path, icon, loadIcon)));
  }
}
