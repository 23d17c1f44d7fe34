/** The few operations of the standard library's POSIX path type that the
    linker driver relies on: replacing the file name, replacing the
    extension, taking the file stem and the directory name, and joining.
    A path is its directory part (possibly empty) and its last component. */
module Paths {
  import opened Common

  datatype Path = Path(dir: string, name: string)

  /** The path as the string handed to a command line. */
  function Display(p: Path): string {
    if p.dir == "" then p.name
    else if EndsWith(p.dir, "/") then p.dir + p.name
    else p.dir + "/" + p.name
  }

  /** `dir.join(name)` for a relative `name` without separators. */
  function Join(dir: Path, name: string): (r: Path)
    ensures r.name == name
  {
    Path(Display(dir), name)
  }

  /** `filename()` is `None` for the empty name and for `.` and `..`. */
  predicate HasFilename(p: Path) {
    p.name != "" && p.name != "." && p.name != ".."
  }

  /** `with_filename`: same directory, new last component. */
  function WithFilename(p: Path, name: string): (r: Path)
    ensures r.dir == p.dir && r.name == name
  {
    Path(p.dir, name)
  }

  /** Position of the last `.` in `s`, if any. */
  function LastDot(s: string): (r: Option<nat>)
    ensures r.None? ==> forall i :: 0 <= i < |s| ==> s[i] != '.'
    ensures r.Some? ==> r.value < |s| && s[r.value] == '.'
    ensures r.Some? ==> forall i :: r.value < i < |s| ==> s[i] != '.'
  {
    if s == [] then None
    else if s[|s| - 1] == '.' then Some(|s| - 1)
    else LastDot(s[..|s| - 1])
  }

  /** `with_extension(ext)`: an empty `ext` removes the extension; otherwise
      the part before the last dot (the whole name when it has no dot or
      only a leading one) gets a `.` and then `ext`. A path without a file
      name is left alone. */
  function WithExtension(p: Path, ext: string): (r: Path)
    ensures r.dir == p.dir
    ensures HasFilename(p) && ext != [] && LastDot(p.name).None? ==> r.name == p.name + "." + ext
    ensures !HasFilename(p) ==> r == p
  {
    if !HasFilename(p) then p
    else
      var dot := LastDot(p.name);
      if ext == "" then
        (if dot.None? || dot.value == 0 then p else Path(p.dir, p.name[..dot.value]))
      else
        var idx := if dot.None? || dot.value == 0 then |p.name| else dot.value;
        Path(p.dir, p.name[..idx] + "." + ext)
  }

  /** `filestem()` of a file name: the part before the last dot, unless the
      name has no dot, starts with its only dot, or is `..`. */
  function Filestem(name: string): (r: string)
    ensures |r| <= |name| && r == name[..|r|]
  {
    var dot := LastDot(name);
    if dot.None? || dot.value == 0 || name == ".." then name else name[..dot.value]
  }

  /** `dirname()`: the directory part, `.` for a bare file name. */
  function Dirname(p: Path): (r: string)
    ensures r != ""
    ensures p.dir != "" ==> r == p.dir
  {
    if p.dir == "" then "." else p.dir
  }

  /** The extension that `with_extension` adds is the text after the last
      dot of the new name, and the file stem is what it kept. */
  lemma WithExtensionStem(p: Path, ext: string)
    requires HasFilename(p) && ext != [] && forall i :: 0 <= i < |ext| ==> ext[i] != '.'
    ensures var r := WithExtension(p, ext);
      Filestem(r.name) + "." + ext == r.name
  {
    var r := WithExtension(p, ext);
    var dot := LastDot(p.name);
    var idx := if dot.None? || dot.value == 0 then |p.name| else dot.value;
    var stem := p.name[..idx];
    assert r.name == stem + "." + ext;
    assert r.name[..|stem| + 1] == stem + ".";
    assert |stem| >= 1;
    LastDotAfter(stem + ".", ext);
    assert (stem + ".") + ext == r.name;
    assert LastDot(r.name) == Some(|stem|);
    assert r.name != "..";
    assert Filestem(r.name) == r.name[..|stem|] == stem;
  }

  lemma {:induction false} LastDotAfter(a: string, b: string)
    requires a != [] && a[|a| - 1] == '.'
    requires forall i :: 0 <= i < |b| ==> b[i] != '.'
    ensures LastDot(a + b) == Some(|a| - 1)
  {
    if b != [] {
      assert (a + b)[..|a + b| - 1] == a + b[..|b| - 1];
      LastDotAfter(a, b[..|b| - 1]);
    } else {
      assert a + b == a;
    }
  }
}
