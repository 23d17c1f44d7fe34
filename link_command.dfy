/** The system linker's command line for an executable or a dynamic
    library. The command is its program and the argument sequence that the
    driver appends to, in the order the linker resolves symbols: the local
    object, upstream Rust crates, local native libraries, then upstream
    native libraries. */
module LinkCommand {
  import opened Common
  import opened Paths
  import opened Target
  import opened CrateStore
  import opened LinkArchive
  import LinkOutputs
  import WindowsBase
  import LinuxBase

  datatype OptLevel = No | Less | Default | Aggressive

  /** The internal errors that abort the link: a static native library
      propagated past its crate, and a dynamic upstream crate under LTO. */
  datatype LinkError = StaticsPropagated | LtoWithDynamicCrate

  /** What the session supplies to the linker step. `libPath` is the
      sysroot's library directory for the target, `rustPath` the
      `RUST_PATH` directories, `rpathFlags` what the rpath module computes,
      `linkArgs` the `-C link-args` value and `usedLinkArgs` the crate's
      `#[link_args]`; `crates` are the upstream crates in the crate store's
      topological order. */
  datatype Session = Session(
    target: TargetSpec,
    linker: Option<string>,
    libPath: Path,
    optimize: OptLevel,
    lto: bool,
    rpath: bool,
    rpathFlags: seq<string>,
    linkArgs: seq<string>,
    usedLinkArgs: seq<string>,
    addlLibSearchPaths: seq<Path>,
    rustPath: seq<Path>,
    usedLibraries: seq<NativeLib>,
    crates: seq<UsedCrate>)

  /** A command under construction. */
  class Command {
    const program: string
    var args: seq<string>

    constructor New(program: string)
      ensures this.program == program && args == []
    {
      this.program := program;
      args := [];
    }

    method Arg(a: string)
      modifies this
      ensures args == old(args) + [a]
    {
      args := args + [a];
    }

    method Args(a: seq<string>)
      modifies this
      ensures args == old(args) + a
    {
      args := args + a;
    }
  }

  /** `get_cc_prog`: the `-C linker` override, else the target's linker. */
  function GetCcProg(s: Session): (r: string)
    ensures s.linker.None? ==> r == s.target.linker
    ensures s.linker.Some? ==> r == s.linker.value
  {
    match s.linker
    case Some(l) => l
    case None => s.target.linker
  }

  /** Appending the arguments of two stages; the first error wins. */
  function AndThen(a: Result<seq<string>, LinkError>, b: Result<seq<string>, LinkError>)
    : (r: Result<seq<string>, LinkError>)
    ensures r.Ok? <==> a.Ok? && b.Ok?
    ensures r.Ok? ==> r.value == a.value + b.value
    ensures a.Err? ==> r == a
    ensures a.Ok? && b.Err? ==> r == b
  {
    if a.Err? then a else if b.Err? then b else Ok(a.value + b.value)
  }

  // ---------------------------------------------------------------------
  // Local native libraries

  /** A `-L` flag per directory. */
  function SearchFlags(paths: seq<Path>): (r: seq<string>)
    ensures |r| == 2 * |paths|
  {
    if paths == [] then []
    else SearchFlags(paths[..|paths| - 1]) + ["-L", Display(paths[|paths| - 1])]
  }

  /** The arguments for one local native library. */
  function LocalLibArgs(takesHints: bool, l: NativeLib): seq<string> {
    match l.kind
    case NativeFramework => ["-framework", l.name]
    case _ =>
      (if takesHints then [if l.kind == NativeStatic then "-Wl,-Bstatic" else "-Wl,-Bdynamic"] else [])
        + ["-l" + l.name]
  }

  function LocalLibsArgs(takesHints: bool, libs: seq<NativeLib>): seq<string> {
    if libs == [] then []
    else LocalLibsArgs(takesHints, libs[..|libs| - 1]) + LocalLibArgs(takesHints, libs[|libs| - 1])
  }

  /** `add_local_native_libraries`: the search directories, then each
      library (with a linkage hint where the linker takes them), then a
      final hint back to dynamic linking. */
  function LocalNativeArgs(s: Session): seq<string> {
    var takesHints := !s.target.isLikeOsx;
    SearchFlags(s.addlLibSearchPaths) + SearchFlags(s.rustPath)
      + LocalLibsArgs(takesHints, s.usedLibraries)
      + (if takesHints then ["-Wl,-Bdynamic"] else [])
  }

  method AddSearchFlags(cmd: Command, paths: seq<Path>)
    modifies cmd
    ensures cmd.args == old(cmd.args) + SearchFlags(paths)
  {
    var i := 0;
    while i < |paths|
      invariant 0 <= i <= |paths|
      invariant cmd.args == old(cmd.args) + SearchFlags(paths[..i])
    {
      assert paths[..i + 1][..i] == paths[..i];
      cmd.Arg("-L");
      cmd.Arg(Display(paths[i]));
      i := i + 1;
    }
    assert paths[..i] == paths;
  }

  method AddLocalLib(cmd: Command, takesHints: bool, l: NativeLib)
    modifies cmd
    ensures cmd.args == old(cmd.args) + LocalLibArgs(takesHints, l)
  {
    match l.kind {
      case NativeFramework =>
        cmd.Arg("-framework");
        cmd.Arg(l.name);
      case NativeStatic =>
        if takesHints {
          cmd.Arg("-Wl,-Bstatic");
        }
        cmd.Arg("-l" + l.name);
      case NativeUnknown =>
        if takesHints {
          cmd.Arg("-Wl,-Bdynamic");
        }
        cmd.Arg("-l" + l.name);
    }
  }

  method AddLocalLibs(cmd: Command, takesHints: bool, libs: seq<NativeLib>)
    modifies cmd
    ensures cmd.args == old(cmd.args) + LocalLibsArgs(takesHints, libs)
  {
    var i := 0;
    while i < |libs|
      invariant 0 <= i <= |libs|
      invariant cmd.args == old(cmd.args) + LocalLibsArgs(takesHints, libs[..i])
    {
      assert libs[..i + 1][..i] == libs[..i];
      AddLocalLib(cmd, takesHints, libs[i]);
      i := i + 1;
    }
    assert libs[..i] == libs;
  }

  method AddLocalNativeLibraries(cmd: Command, s: Session)
    modifies cmd
    ensures cmd.args == old(cmd.args) + LocalNativeArgs(s)
  {
    ghost var start := cmd.args;
    var takesHints := !s.target.isLikeOsx;
    ghost var s1, s2, libs := SearchFlags(s.addlLibSearchPaths), SearchFlags(s.rustPath),
      LocalLibsArgs(takesHints, s.usedLibraries);
    var last: seq<string> := if takesHints then ["-Wl,-Bdynamic"] else [];
    AddSearchFlags(cmd, s.addlLibSearchPaths);
    AddSearchFlags(cmd, s.rustPath);
    AddLocalLibs(cmd, takesHints, s.usedLibraries);
    cmd.Args(last);
    assert cmd.args == start + s1 + s2 + libs + last;
    assert LocalNativeArgs(s) == s1 + s2 + libs + last;
    Assoc(start, s1 + s2 + libs, last);
    Assoc(start, s1 + s2, libs);
    Assoc(start, s1, s2);
  }

  lemma {:induction false} LocalLibsAppend(h: bool, a: seq<NativeLib>, b: seq<NativeLib>)
    ensures LocalLibsArgs(h, a + b) == LocalLibsArgs(h, a) + LocalLibsArgs(h, b)
  {
    if b == [] {
      assert a + b == a;
    } else {
      assert (a + b)[..|a + b| - 1] == a + b[..|b| - 1];
      LocalLibsAppend(h, a, b[..|b| - 1]);
    }
  }

  /** Where the linker takes hints, every static library is announced by
      `-Wl,-Bstatic` and every other non-framework library by
      `-Wl,-Bdynamic` right before its `-l` flag; elsewhere no hint is
      given, and frameworks never get one. */
  lemma LocalLibHints(h: bool, pre: seq<NativeLib>, l: NativeLib, post: seq<NativeLib>)
    ensures LocalLibsArgs(h, pre + [l] + post)
      == LocalLibsArgs(h, pre) + LocalLibArgs(h, l) + LocalLibsArgs(h, post)
    ensures var args := LocalLibsArgs(h, pre + [l] + post);
      var at := |LocalLibsArgs(h, pre)|;
      if l.kind == NativeFramework then
        args[at..at + 2] == ["-framework", l.name]
      else if h then
        args[at..at + 2] == [if l.kind == NativeStatic then "-Wl,-Bstatic" else "-Wl,-Bdynamic", "-l" + l.name]
      else
        args[at] == "-l" + l.name
  {
    LocalLibsAppend(h, pre + [l], post);
    LocalLibsAppend(h, pre, [l]);
    assert [l][..0] == [];
    var x := LocalLibsArgs(h, pre);
    var y := LocalLibArgs(h, l);
    var z := LocalLibsArgs(h, post);
    assert LocalLibsArgs(h, [l]) == y;
    assert LocalLibsArgs(h, pre + [l] + post) == x + y + z;
  }

  /** Where hints are taken the local libraries end by switching back to
      dynamic linking; on OS X no hint is emitted at all. */
  lemma LocalNativeEnds(s: Session)
    ensures !s.target.isLikeOsx ==> LocalNativeArgs(s)[|LocalNativeArgs(s)| - 1] == "-Wl,-Bdynamic"
    ensures s.target.isLikeOsx ==>
      (LocalNativeArgs(s)
       == SearchFlags(s.addlLibSearchPaths) + SearchFlags(s.rustPath) + LocalLibsArgs(false, s.usedLibraries))
  {
  }

  // ---------------------------------------------------------------------
  // Upstream Rust crates

  /** `unlib`: the `lib` prefix of a library's file stem is dropped for
      `-l`, except on Windows, where libraries have no prefix. */
  function Unlib(t: TargetSpec, stem: string): (r: string)
    ensures !t.isLikeWindows && StartsWith(stem, "lib") ==> "lib" + r == stem
    ensures t.isLikeWindows || !StartsWith(stem, "lib") ==> r == stem
  {
    if StartsWith(stem, "lib") && !t.isLikeWindows then stem[3..] else stem
  }

  /** `add_dynamic_crate`: the library's directory and its `-l` name. LTO
      needs every upstream crate as an rlib, so a dylib here is an internal
      error. */
  function DynamicCrateArgs(s: Session, cratepath: Path): (r: Result<seq<string>, LinkError>)
    ensures r.Err? <==> s.lto
    ensures r.Err? ==> r.error == LtoWithDynamicCrate
    ensures r.Ok? ==> |r.value| == 3 && r.value[0] == "-L"
  {
    if s.lto then Err(LtoWithDynamicCrate)
    else Ok(["-L", Dirname(cratepath), "-l" + Unlib(s.target, Filestem(cratepath.name))])
  }

  /** The crate's name inside its rlib's file name `lib<name>.rlib`. */
  function RlibCrateName(filename: string): string
    requires |filename| >= 8
  {
    filename[3..|filename| - 5]
  }

  /** `add_static_crate`: without LTO the rlib itself; with LTO a copy in
      the temporary directory from which the crate's object was removed,
      and nothing if no object is left. */
  function StaticCrateArgs(s: Session, tmpdir: Path, cratepath: Path, members: seq<string>)
    : (r: seq<string>)
    requires s.lto ==> |cratepath.name| >= 8
    ensures !s.lto ==> r == [Display(cratepath)]
    ensures s.lto ==> (r != [] <==> KeptAfterLto(members, RlibCrateName(cratepath.name)))
  {
    if !s.lto then [Display(cratepath)]
    else if KeptAfterLto(members, RlibCrateName(cratepath.name)) then [Display(Join(tmpdir, cratepath.name))]
    else []
  }

  /** How crate `c` is to be linked: its entry of the per-output format
      table, which is indexed by crate number counted from 1. */
  function FormatOf(formats: seq<Option<Linkage>>, c: UsedCrate): Option<Linkage>
    requires 1 <= c.cnum <= |formats|
  {
    formats[c.cnum - 1]
  }

  /** The format table asks for crate `c` as a dynamic library. */
  predicate LinkedDynamically(formats: seq<Option<Linkage>>, c: UsedCrate) {
    1 <= c.cnum <= |formats| && formats[c.cnum - 1] == Some(RequireDynamic)
  }

  /** What the crate store guarantees: every crate has a format entry, and
      the file its linkage needs was found (an rlib with a `lib….rlib`
      name where LTO cuts the name out of it). */
  predicate SourcesKnown(s: Session, formats: seq<Option<Linkage>>) {
    forall c :: c in s.crates ==> CrateSourceKnown(s, formats, c)
  }

  predicate CrateSourceKnown(s: Session, formats: seq<Option<Linkage>>, c: UsedCrate) {
    1 <= c.cnum <= |formats|
    && (formats[c.cnum - 1] == Some(RequireDynamic) ==> c.dylib.Some? && HasFilename(c.dylib.value))
    && (formats[c.cnum - 1] == Some(RequireStatic) ==>
          c.rlib.Some? && (s.lto ==> |c.rlib.value.name| >= 8))
  }

  function CrateArgs(s: Session, formats: seq<Option<Linkage>>, tmpdir: Path, c: UsedCrate)
    : Result<seq<string>, LinkError>
    requires CrateSourceKnown(s, formats, c)
  {
    match FormatOf(formats, c)
    case None => Ok([])
    case Some(RequireDynamic) => DynamicCrateArgs(s, c.dylib.value)
    case Some(RequireStatic) => Ok(StaticCrateArgs(s, tmpdir, c.rlib.value, c.rlibMembers))
  }

  /** `add_upstream_rust_crates` over the first crates. */
  function UpstreamRustArgs(s: Session, formats: seq<Option<Linkage>>, tmpdir: Path,
                            crates: seq<UsedCrate>): Result<seq<string>, LinkError>
    requires forall c :: c in crates ==> CrateSourceKnown(s, formats, c)
  {
    if crates == [] then Ok([])
    else
      AndThen(UpstreamRustArgs(s, formats, tmpdir, crates[..|crates| - 1]),
              CrateArgs(s, formats, tmpdir, crates[|crates| - 1]))
  }

  /** Crates the format table marks as not needed add nothing. */
  lemma UpstreamSkipsNotNeeded(s: Session, formats: seq<Option<Linkage>>, tmpdir: Path,
                               crates: seq<UsedCrate>, c: UsedCrate)
    requires forall d :: d in crates ==> CrateSourceKnown(s, formats, d)
    requires CrateSourceKnown(s, formats, c) && FormatOf(formats, c).None?
    ensures UpstreamRustArgs(s, formats, tmpdir, crates + [c]) == UpstreamRustArgs(s, formats, tmpdir, crates)
  {
    assert (crates + [c])[..|crates|] == crates;
    var r := UpstreamRustArgs(s, formats, tmpdir, crates);
    if r.Ok? {
      AppendNil(r.value);
    }
  }

  /** The upstream crates fail exactly under LTO with a crate that must be
      linked dynamically. */
  lemma {:induction false} UpstreamRustFails(s: Session, formats: seq<Option<Linkage>>, tmpdir: Path,
                                             crates: seq<UsedCrate>)
    requires forall c :: c in crates ==> CrateSourceKnown(s, formats, c)
    ensures UpstreamRustArgs(s, formats, tmpdir, crates).Err?
      <==> s.lto && exists i :: 0 <= i < |crates| && LinkedDynamically(formats, crates[i])
    ensures UpstreamRustArgs(s, formats, tmpdir, crates).Err? ==>
      UpstreamRustArgs(s, formats, tmpdir, crates).error == LtoWithDynamicCrate
  {
    if crates != [] {
      var init := crates[..|crates| - 1];
      var last := crates[|crates| - 1];
      assert forall c :: c in init ==> c in crates;
      assert last in crates;
      CrateArgsFails(s, formats, tmpdir, last);
      UpstreamRustFails(s, formats, tmpdir, init);
      DynamicInSplit(formats, crates, init);
    }
  }

  /** One crate fails exactly under LTO when it must be linked dynamically. */
  lemma CrateArgsFails(s: Session, formats: seq<Option<Linkage>>, tmpdir: Path, c: UsedCrate)
    requires CrateSourceKnown(s, formats, c)
    ensures CrateArgs(s, formats, tmpdir, c).Err? <==> s.lto && LinkedDynamically(formats, c)
    ensures CrateArgs(s, formats, tmpdir, c).Err? ==> CrateArgs(s, formats, tmpdir, c).error == LtoWithDynamicCrate
  {
  }

  /** A crate linked dynamically is among the first crates or is the last. */
  lemma DynamicInSplit(formats: seq<Option<Linkage>>, crates: seq<UsedCrate>, init: seq<UsedCrate>)
    requires crates != [] && init == crates[..|crates| - 1]
    ensures (exists i :: 0 <= i < |crates| && LinkedDynamically(formats, crates[i]))
      <==> (exists i :: 0 <= i < |init| && LinkedDynamically(formats, init[i]))
           || LinkedDynamically(formats, crates[|crates| - 1])
  {
    if exists i :: 0 <= i < |crates| && LinkedDynamically(formats, crates[i]) {
      var i :| 0 <= i < |crates| && LinkedDynamically(formats, crates[i]);
      if i < |init| {
        assert init[i] == crates[i];
      }
    }
    if exists i :: 0 <= i < |init| && LinkedDynamically(formats, init[i]) {
      var i :| 0 <= i < |init| && LinkedDynamically(formats, init[i]);
      assert crates[i] == init[i];
    }
  }

  method AddDynamicCrate(cmd: Command, s: Session, cratepath: Path) returns (err: Option<LinkError>)
    modifies cmd
    ensures err.Some? <==> DynamicCrateArgs(s, cratepath).Err?
    ensures err.Some? ==> err.value == DynamicCrateArgs(s, cratepath).error
    ensures err.None? ==> cmd.args == old(cmd.args) + DynamicCrateArgs(s, cratepath).value
  {
    if s.lto {
      return Some(LtoWithDynamicCrate);
    }
    var dir := Dirname(cratepath);
    if dir != "" {
      cmd.Arg("-L");
      cmd.Arg(dir);
    }
    cmd.Arg("-l" + Unlib(s.target, Filestem(cratepath.name)));
    err := None;
  }

  /** `files.iter().any(|s| s.ends_with(".o"))`. */
  method AnyObject(files: seq<string>) returns (found: bool)
    ensures found == HasObject(files)
  {
    found := false;
    var i := 0;
    while i < |files| && !found
      invariant 0 <= i <= |files|
      invariant found <==> exists k :: 0 <= k < i && EndsWith(files[k], ".o")
    {
      found := EndsWith(files[i], ".o");
      i := i + 1;
    }
  }

  method AddStaticCrate(cmd: Command, s: Session, tmpdir: Path, cratepath: Path, members: seq<string>)
    requires s.lto ==> |cratepath.name| >= 8
    modifies cmd
    ensures cmd.args == old(cmd.args) + StaticCrateArgs(s, tmpdir, cratepath, members)
  {
    if s.lto {
      var name := cratepath.name[3..|cratepath.name| - 5];
      var dst := Join(tmpdir, cratepath.name);
      var archive := new Archive.Open(members);
      archive.RemoveFile(name + ".o");
      var files := archive.Files();
      var keep := AnyObject(files);
      if keep {
        cmd.Arg(Display(dst));
      }
    } else {
      cmd.Arg(Display(cratepath));
    }
  }

  method AddUpstreamRustCrates(cmd: Command, s: Session, formats: seq<Option<Linkage>>, tmpdir: Path)
    returns (err: Option<LinkError>)
    requires SourcesKnown(s, formats)
    modifies cmd
    ensures err.Some? <==> UpstreamRustArgs(s, formats, tmpdir, s.crates).Err?
    ensures err.Some? ==> err.value == UpstreamRustArgs(s, formats, tmpdir, s.crates).error
    ensures err.None? ==> cmd.args == old(cmd.args) + UpstreamRustArgs(s, formats, tmpdir, s.crates).value
  {
    var deps := s.crates;
    var i := 0;
    while i < |deps|
      invariant 0 <= i <= |deps|
      invariant UpstreamRustArgs(s, formats, tmpdir, deps[..i]).Ok?
      invariant cmd.args == old(cmd.args) + UpstreamRustArgs(s, formats, tmpdir, deps[..i]).value
    {
      var c := deps[i];
      assert c in s.crates;
      UpstreamRustStep(s, formats, tmpdir, deps, i);
      ghost var before := cmd.args;
      match FormatOf(formats, c) {
        case None =>
          AppendNil(before);
        case Some(RequireDynamic) =>
          var e := AddDynamicCrate(cmd, s, c.dylib.value);
          if e.Some? {
            UpstreamRustErrPrefix(s, formats, tmpdir, deps, i + 1);
            return e;
          }
        case Some(RequireStatic) =>
          AddStaticCrate(cmd, s, tmpdir, c.rlib.value, c.rlibMembers);
      }
      Assoc(old(cmd.args), UpstreamRustArgs(s, formats, tmpdir, deps[..i]).value,
            CrateArgs(s, formats, tmpdir, c).value);
      i := i + 1;
    }
    assert deps[..i] == deps;
    err := None;
  }

  /** One more crate: the arguments so far, then that crate's. */
  lemma UpstreamRustStep(s: Session, formats: seq<Option<Linkage>>, tmpdir: Path,
                         crates: seq<UsedCrate>, i: nat)
    requires forall c :: c in crates ==> CrateSourceKnown(s, formats, c)
    requires i < |crates|
    ensures UpstreamRustArgs(s, formats, tmpdir, crates[..i + 1])
      == AndThen(UpstreamRustArgs(s, formats, tmpdir, crates[..i]), CrateArgs(s, formats, tmpdir, crates[i]))
  {
    assert crates[..i + 1][..i] == crates[..i];
    assert crates[..i + 1][i] == crates[i];
  }

  /** Once a prefix of the crates fails, the whole list fails the same way. */
  lemma {:induction false} UpstreamRustErrPrefix(s: Session, formats: seq<Option<Linkage>>, tmpdir: Path,
                                                 crates: seq<UsedCrate>, n: nat)
    requires forall c :: c in crates ==> CrateSourceKnown(s, formats, c)
    requires n <= |crates| && UpstreamRustArgs(s, formats, tmpdir, crates[..n]).Err?
    ensures UpstreamRustArgs(s, formats, tmpdir, crates) == UpstreamRustArgs(s, formats, tmpdir, crates[..n])
    decreases |crates|
  {
    if n == |crates| {
      assert crates[..n] == crates;
    } else {
      var init := crates[..|crates| - 1];
      assert forall c :: c in init ==> c in crates;
      assert init[..n] == crates[..n];
      UpstreamRustErrPrefix(s, formats, tmpdir, init, n);
    }
  }

  // ---------------------------------------------------------------------
  // Upstream native libraries

  /** The native libraries of all upstream crates, in crate order. */
  function AllNativeLibs(crates: seq<UsedCrate>): seq<NativeLib> {
    if crates == [] then [] else AllNativeLibs(crates[..|crates| - 1]) + crates[|crates| - 1].nativeLibs
  }

  function UpstreamLibArgs(l: NativeLib): (r: Result<seq<string>, LinkError>)
    ensures r.Err? <==> l.kind == NativeStatic
  {
    match l.kind
    case NativeUnknown => Ok(["-l" + l.name])
    case NativeFramework => Ok(["-framework", l.name])
    case NativeStatic => Err(StaticsPropagated)
  }

  /** `add_upstream_native_libraries` over a list of libraries. */
  function UpstreamLibsArgs(libs: seq<NativeLib>): Result<seq<string>, LinkError> {
    if libs == [] then Ok([])
    else AndThen(UpstreamLibsArgs(libs[..|libs| - 1]), UpstreamLibArgs(libs[|libs| - 1]))
  }

  function UpstreamNativeArgs(s: Session): Result<seq<string>, LinkError> {
    UpstreamLibsArgs(AllNativeLibs(s.crates))
  }

  /** Upstream native libraries fail exactly when one of them is static:
      those must not propagate past the crate that declared them. */
  lemma {:induction false} UpstreamLibsFail(libs: seq<NativeLib>)
    ensures UpstreamLibsArgs(libs).Err? <==> exists i :: 0 <= i < |libs| && libs[i].kind == NativeStatic
    ensures UpstreamLibsArgs(libs).Err? ==> UpstreamLibsArgs(libs).error == StaticsPropagated
  {
    if libs != [] {
      var init := libs[..|libs| - 1];
      UpstreamLibsFail(init);
      if exists i :: 0 <= i < |init| && init[i].kind == NativeStatic {
        var i :| 0 <= i < |init| && init[i].kind == NativeStatic;
        assert libs[i] == init[i];
      }
      if exists i :: 0 <= i < |libs| && libs[i].kind == NativeStatic {
        var i :| 0 <= i < |libs| && libs[i].kind == NativeStatic;
        if i < |init| {
          assert init[i] == libs[i];
        }
      }
    }
  }

  /** The flags of two runs of libraries are those of each in turn, and
      the first error wins. */
  lemma {:induction false} UpstreamLibsAppend(a: seq<NativeLib>, b: seq<NativeLib>)
    ensures UpstreamLibsArgs(a + b) == AndThen(UpstreamLibsArgs(a), UpstreamLibsArgs(b))
  {
    if b == [] {
      assert a + b == a;
      if UpstreamLibsArgs(a).Ok? {
        AppendNil(UpstreamLibsArgs(a).value);
      }
    } else {
      var b' := b[..|b| - 1];
      assert (a + b)[..|a + b| - 1] == a + b';
      UpstreamLibsAppend(a, b');
      var x, y, z := UpstreamLibsArgs(a), UpstreamLibsArgs(b'), UpstreamLibArgs(b[|b| - 1]);
      if x.Ok? && y.Ok? && z.Ok? {
        Assoc(x.value, y.value, z.value);
      }
    }
  }

  method AddUpstreamLibs(cmd: Command, libs: seq<NativeLib>) returns (err: Option<LinkError>)
    modifies cmd
    ensures err.Some? <==> UpstreamLibsArgs(libs).Err?
    ensures err.Some? ==> err.value == UpstreamLibsArgs(libs).error
    ensures err.None? ==> cmd.args == old(cmd.args) + UpstreamLibsArgs(libs).value
  {
    var j := 0;
    while j < |libs|
      invariant 0 <= j <= |libs|
      invariant UpstreamLibsArgs(libs[..j]).Ok?
      invariant cmd.args == old(cmd.args) + UpstreamLibsArgs(libs[..j]).value
    {
      assert libs[..j + 1][..j] == libs[..j];
      var l := libs[j];
      match l.kind {
        case NativeUnknown =>
          cmd.Arg("-l" + l.name);
        case NativeFramework =>
          cmd.Arg("-framework");
          cmd.Arg(l.name);
        case NativeStatic =>
          UpstreamLibsFail(libs);
          return Some(StaticsPropagated);
      }
      j := j + 1;
    }
    assert libs[..j] == libs;
    err := None;
  }

  method AddUpstreamNativeLibraries(cmd: Command, s: Session) returns (err: Option<LinkError>)
    modifies cmd
    ensures err.Some? <==> UpstreamNativeArgs(s).Err?
    ensures err.Some? ==> err.value == UpstreamNativeArgs(s).error
    ensures err.None? ==> cmd.args == old(cmd.args) + UpstreamNativeArgs(s).value
  {
    var crates := s.crates;
    var i := 0;
    while i < |crates|
      invariant 0 <= i <= |crates|
      invariant UpstreamLibsArgs(AllNativeLibs(crates[..i])).Ok?
      invariant cmd.args == old(cmd.args) + UpstreamLibsArgs(AllNativeLibs(crates[..i])).value
    {
      NativeLibsStep(crates, i);
      var e := AddUpstreamLibs(cmd, crates[i].nativeLibs);
      if e.Some? {
        NativeLibsErrPrefix(crates, i + 1);
        return e;
      }
      Assoc(old(cmd.args), UpstreamLibsArgs(AllNativeLibs(crates[..i])).value,
            UpstreamLibsArgs(crates[i].nativeLibs).value);
      i := i + 1;
    }
    assert crates[..i] == crates;
    err := None;
  }

  /** One more crate: the flags so far, then those of its libraries. */
  lemma NativeLibsStep(crates: seq<UsedCrate>, i: nat)
    requires i < |crates|
    ensures UpstreamLibsArgs(AllNativeLibs(crates[..i + 1]))
      == AndThen(UpstreamLibsArgs(AllNativeLibs(crates[..i])), UpstreamLibsArgs(crates[i].nativeLibs))
  {
    assert crates[..i + 1][..i] == crates[..i];
    assert AllNativeLibs(crates[..i + 1]) == AllNativeLibs(crates[..i]) + crates[i].nativeLibs;
    UpstreamLibsAppend(AllNativeLibs(crates[..i]), crates[i].nativeLibs);
  }

  /** Once the libraries of the first crates fail, all of them fail the
      same way. */
  lemma {:induction false} NativeLibsErrPrefix(crates: seq<UsedCrate>, n: nat)
    requires n <= |crates| && UpstreamLibsArgs(AllNativeLibs(crates[..n])).Err?
    ensures UpstreamLibsArgs(AllNativeLibs(crates)) == UpstreamLibsArgs(AllNativeLibs(crates[..n]))
    decreases |crates|
  {
    if n == |crates| {
      assert crates[..n] == crates;
    } else {
      var init := crates[..|crates| - 1];
      assert init[..n] == crates[..n];
      NativeLibsErrPrefix(init, n);
      UpstreamLibsAppend(AllNativeLibs(init), crates[|crates| - 1].nativeLibs);
    }
  }

  /** A library of crate `i` is one of all the upstream libraries. */
  lemma AllNativeLibsHas(crates: seq<UsedCrate>, i: nat, j: nat)
    requires i < |crates| && j < |crates[i].nativeLibs|
    ensures exists k :: 0 <= k < |AllNativeLibs(crates)| && AllNativeLibs(crates)[k] == crates[i].nativeLibs[j]
  {
    AllNativeLibsPrefix(crates, i + 1);
    assert crates[..i + 1][..i] == crates[..i];
    var pre := AllNativeLibs(crates[..i]);
    assert AllNativeLibs(crates[..i + 1]) == pre + crates[i].nativeLibs;
    var k := |pre| + j;
    assert AllNativeLibs(crates[..i + 1])[k] == crates[i].nativeLibs[j];
  }

  /** The libraries of the first crates come first. */
  lemma {:induction false} AllNativeLibsPrefix(crates: seq<UsedCrate>, n: nat)
    requires n <= |crates|
    ensures AllNativeLibs(crates[..n]) <= AllNativeLibs(crates)
  {
    if n == |crates| {
      assert crates[..n] == crates;
    } else {
      var init := crates[..|crates| - 1];
      assert init[..n] == crates[..n];
      AllNativeLibsPrefix(init, n);
    }
  }

  // ---------------------------------------------------------------------
  // The whole command line

  /** The arguments in front of the libraries: the runtime's directory,
      the output and the object, then the flags that depend on the target and
      the kind of output. */
  function HeadArgs(s: Session, dylib: bool, obj: Path, out: Path): seq<string> {
    ["-L", Display(s.libPath), "-o", Display(out), Display(obj)] + HeadFlags(s, dylib, obj)
  }

  /** On OS X the stack-growth runtime is loaded whole; a dylib links its
      metadata object; an executable off OS X drops unused sections; a GNU
      linker optimises when the code is optimised. */
  function HeadFlags(s: Session, dylib: bool, obj: Path): seq<string> {
    var t := s.target;
    (if t.isLikeOsx && !t.disableStackChecking
     then ["-Wl,-force_load," + Display(Join(s.libPath, "libmorestack.a"))] else [])
      + (if dylib then [Display(WithExtension(obj, "metadata.o"))] else [])
      + (if !dylib && !t.isLikeOsx then ["-Wl,--gc-sections"] else [])
      + (if t.linkerIsGnu && (s.optimize == Default || s.optimize == Aggressive) then ["-Wl,-O1"] else [])
  }

  /** The arguments after the libraries: what kind of output to make, the
      rpath flags, and the user's and crates' extra arguments. */
  function TailArgs(s: Session, dylib: bool, out: Path): seq<string> {
    OutputKindArgs(s, dylib, out) + (if s.rpath then s.rpathFlags else []) + s.linkArgs + s.usedLinkArgs
  }

  /** A dylib is `-shared`, or on OS X a `-dynamiclib` whose install name is
      rpath-relative when rpaths are in use. */
  function OutputKindArgs(s: Session, dylib: bool, out: Path): seq<string> {
    if dylib then
      (if s.target.isLikeOsx
       then ["-dynamiclib", "-Wl,-dylib"] + (if s.rpath then ["-Wl,-install_name,@rpath/" + out.name] else [])
       else ["-shared"])
    else []
  }

  /** `link_args`. `formats` is the translation's format table for the
      output kind being linked. */
  function LinkArgsList(s: Session, formats: seq<Option<Linkage>>, dylib: bool, tmpdir: Path,
                        obj: Path, out: Path): Result<seq<string>, LinkError>
    requires SourcesKnown(s, formats)
  {
    AndThen(
      AndThen(
        AndThen(AndThen(Ok(HeadArgs(s, dylib, obj, out)), UpstreamRustArgs(s, formats, tmpdir, s.crates)),
                Ok(LocalNativeArgs(s))),
        UpstreamNativeArgs(s)),
      Ok(TailArgs(s, dylib, out)))
  }

  method AddHeadArgs(cmd: Command, s: Session, dylib: bool, obj: Path, out: Path)
    modifies cmd
    ensures cmd.args == old(cmd.args) + HeadArgs(s, dylib, obj, out)
  {
    ghost var start := cmd.args;
    cmd.Arg("-L");
    cmd.Arg(Display(s.libPath));
    cmd.Arg("-o");
    cmd.Arg(Display(out));
    cmd.Arg(Display(obj));
    ghost var fixed := cmd.args;
    assert fixed == start + ["-L", Display(s.libPath), "-o", Display(out), Display(obj)];
    AddHeadFlags(cmd, s, dylib, obj);
    Assoc(start, ["-L", Display(s.libPath), "-o", Display(out), Display(obj)], HeadFlags(s, dylib, obj));
  }

  method AddHeadFlags(cmd: Command, s: Session, dylib: bool, obj: Path)
    modifies cmd
    ensures cmd.args == old(cmd.args) + HeadFlags(s, dylib, obj)
  {
    var t := s.target;
    ghost var a0 := cmd.args;
    ghost var p2 := if t.isLikeOsx && !t.disableStackChecking
      then ["-Wl,-force_load," + Display(Join(s.libPath, "libmorestack.a"))] else [];
    ghost var p3 := if dylib then [Display(WithExtension(obj, "metadata.o"))] else [];
    ghost var p4 := if !dylib && !t.isLikeOsx then ["-Wl,--gc-sections"] else [];
    ghost var p5 := if t.linkerIsGnu && (s.optimize == Default || s.optimize == Aggressive)
      then ["-Wl,-O1"] else [];
    if t.isLikeOsx && !t.disableStackChecking {
      var morestack := Join(s.libPath, "libmorestack.a");
      cmd.Arg("-Wl,-force_load," + Display(morestack));
    }
    ghost var a2 := cmd.args;
    assert a2 == a0 + p2;
    if dylib {
      cmd.Arg(Display(WithExtension(obj, "metadata.o")));
    }
    ghost var a3 := cmd.args;
    assert a3 == a2 + p3;
    if !dylib && !t.isLikeOsx {
      cmd.Arg("-Wl,--gc-sections");
    }
    ghost var a4 := cmd.args;
    assert a4 == a3 + p4;
    if t.linkerIsGnu {
      if s.optimize == Default || s.optimize == Aggressive {
        cmd.Arg("-Wl,-O1");
      }
    }
    assert cmd.args == a4 + p5;
    assert HeadFlags(s, dylib, obj) == p2 + p3 + p4 + p5;
    Assoc(a0, p2 + p3, p4);
    Assoc(a0, p2 + p3 + p4, p5);
    Assoc(a0, p2, p3);
  }

  method AddOutputKindArgs(cmd: Command, s: Session, dylib: bool, out: Path)
    requires dylib && s.target.isLikeOsx && s.rpath ==> HasFilename(out)
    modifies cmd
    ensures cmd.args == old(cmd.args) + OutputKindArgs(s, dylib, out)
  {
    if dylib {
      if s.target.isLikeOsx {
        cmd.Args(["-dynamiclib", "-Wl,-dylib"]);
        if s.rpath {
          cmd.Arg("-Wl,-install_name,@rpath/" + out.name);
        }
      } else {
        cmd.Arg("-shared");
      }
    }
  }

  method AddTailArgs(cmd: Command, s: Session, dylib: bool, out: Path)
    requires dylib && s.target.isLikeOsx && s.rpath ==> HasFilename(out)
    modifies cmd
    ensures cmd.args == old(cmd.args) + TailArgs(s, dylib, out)
  {
    ghost var start := cmd.args;
    ghost var kind := OutputKindArgs(s, dylib, out);
    ghost var rpath := if s.rpath then s.rpathFlags else [];
    AddOutputKindArgs(cmd, s, dylib, out);
    if s.rpath {
      cmd.Args(s.rpathFlags);
    }
    cmd.Args(s.linkArgs);
    ghost var given := cmd.args;
    assert given == start + kind + rpath + s.linkArgs;
    var used := s.usedLinkArgs;
    var k := 0;
    while k < |used|
      invariant 0 <= k <= |used|
      invariant cmd.args == given + used[..k]
    {
      assert used[..k + 1] == used[..k] + [used[k]];
      cmd.Arg(used[k]);
      k := k + 1;
    }
    assert used[..k] == used;
    Assoc(start, kind + rpath + s.linkArgs, used);
    Assoc(start, kind + rpath, s.linkArgs);
    Assoc(start, kind, rpath);
  }

  method LinkArgs(cmd: Command, s: Session, formats: seq<Option<Linkage>>, dylib: bool, tmpdir: Path,
                  obj: Path, out: Path) returns (err: Option<LinkError>)
    requires SourcesKnown(s, formats)
    requires dylib && s.target.isLikeOsx && s.rpath ==> HasFilename(out)
    modifies cmd
    ensures err.Some? <==> LinkArgsList(s, formats, dylib, tmpdir, obj, out).Err?
    ensures err.Some? ==> err.value == LinkArgsList(s, formats, dylib, tmpdir, obj, out).error
    ensures err.None? ==> cmd.args == old(cmd.args) + LinkArgsList(s, formats, dylib, tmpdir, obj, out).value
  {
    ghost var start := cmd.args;
    ghost var head := HeadArgs(s, dylib, obj, out);
    AddHeadArgs(cmd, s, dylib, obj, out);
    var e := AddUpstreamRustCrates(cmd, s, formats, tmpdir);
    ghost var rust := UpstreamRustArgs(s, formats, tmpdir, s.crates);
    ghost var r1 := AndThen(Ok(head), rust);
    if e.Some? {
      return e;
    }
    ghost var local := LocalNativeArgs(s);
    ghost var r2 := AndThen(r1, Ok(local));
    AddLocalNativeLibraries(cmd, s);
    e := AddUpstreamNativeLibraries(cmd, s);
    ghost var native := UpstreamNativeArgs(s);
    ghost var r3 := AndThen(r2, native);
    if e.Some? {
      return e;
    }
    ghost var tail := TailArgs(s, dylib, out);
    AddTailArgs(cmd, s, dylib, out);
    assert cmd.args == start + head + rust.value + local + native.value + tail;
    assert r3.Ok? && r3.value == head + rust.value + local + native.value;
    Assoc(start, head + rust.value + local + native.value, tail);
    Assoc(start, head + rust.value + local, native.value);
    Assoc(start, head + rust.value, local);
    Assoc(start, head, rust.value);
    err := None;
  }

  /** The command `link_natively` runs: the linker, the target's pre-link
      arguments, the link arguments, and the target's post-link arguments. */
  method LinkNatively(s: Session, formats: seq<Option<Linkage>>, dylib: bool, tmpdir: Path,
                      obj: Path, out: Path) returns (cmd: Command, err: Option<LinkError>)
    requires SourcesKnown(s, formats)
    requires dylib && s.target.isLikeOsx && s.rpath ==> HasFilename(out)
    ensures fresh(cmd) && cmd.program == GetCcProg(s)
    ensures err.Some? <==> LinkArgsList(s, formats, dylib, tmpdir, obj, out).Err?
    ensures err.None? ==>
      (cmd.args == s.target.preLinkArgs
       + LinkArgsList(s, formats, dylib, tmpdir, obj, out).value + s.target.postLinkArgs)
  {
    cmd := new Command.New(GetCcProg(s));
    cmd.Args(s.target.preLinkArgs);
    ghost var list := LinkArgsList(s, formats, dylib, tmpdir, obj, out);
    err := LinkArgs(cmd, s, formats, dylib, tmpdir, obj, out);
    if err.None? {
      cmd.Args(s.target.postLinkArgs);
      assert cmd.args == s.target.preLinkArgs + list.value + s.target.postLinkArgs;
    }
  }

  // ---------------------------------------------------------------------
  // Properties of the whole command line

  /** The link fails exactly when LTO meets a crate that must be linked
      dynamically, or when an upstream crate propagates a static native
      library; the LTO failure is the one reported when both happen. */
  lemma LinkArgsFails(s: Session, formats: seq<Option<Linkage>>, dylib: bool, tmpdir: Path,
                      obj: Path, out: Path)
    requires SourcesKnown(s, formats)
    ensures LinkArgsList(s, formats, dylib, tmpdir, obj, out).Err?
      <==> (s.lto && exists i :: 0 <= i < |s.crates| && LinkedDynamically(formats, s.crates[i]))
           || (exists k :: 0 <= k < |AllNativeLibs(s.crates)| && AllNativeLibs(s.crates)[k].kind == NativeStatic)
    ensures (s.lto && exists i :: 0 <= i < |s.crates| && LinkedDynamically(formats, s.crates[i])) ==>
      LinkArgsList(s, formats, dylib, tmpdir, obj, out) == Err(LtoWithDynamicCrate)
  {
    var head, rust, local, native, tail := HeadArgs(s, dylib, obj, out),
      UpstreamRustArgs(s, formats, tmpdir, s.crates), LocalNativeArgs(s),
      UpstreamLibsArgs(AllNativeLibs(s.crates)), TailArgs(s, dylib, out);
    assert LinkArgsList(s, formats, dylib, tmpdir, obj, out)
      == AndThen(AndThen(AndThen(AndThen(Ok(head), rust), Ok(local)), native), Ok(tail));
    UpstreamRustFails(s, formats, tmpdir, s.crates);
    UpstreamLibsFail(AllNativeLibs(s.crates));
    ChainFails(head, rust, local, native, tail);
  }

  /** The stages around the two that can fail cannot change the outcome:
      the chain fails when either fails, with the first one's error. */
  lemma ChainFails(head: seq<string>, rust: Result<seq<string>, LinkError>, local: seq<string>,
                   native: Result<seq<string>, LinkError>, tail: seq<string>)
    ensures var r := AndThen(AndThen(AndThen(AndThen(Ok(head), rust), Ok(local)), native), Ok(tail));
      (r.Err? <==> rust.Err? || native.Err?)
      && (rust.Err? ==> r == rust)
      && (rust.Ok? && native.Err? ==> r == native)
  {
  }

  /** A successful command line starts with the runtime's directory, the
      output and the object, and ends with the user's link arguments
      followed by the crate's `#[link_args]`. */
  lemma LinkArgsFrame(s: Session, formats: seq<Option<Linkage>>, dylib: bool, tmpdir: Path,
                      obj: Path, out: Path)
    requires SourcesKnown(s, formats)
    ensures var r := LinkArgsList(s, formats, dylib, tmpdir, obj, out);
      r.Ok? ==> |r.value| >= 5 + |s.linkArgs| + |s.usedLinkArgs|
                && r.value[..5] == ["-L", Display(s.libPath), "-o", Display(out), Display(obj)]
                && r.value[|r.value| - |s.linkArgs| - |s.usedLinkArgs|..] == s.linkArgs + s.usedLinkArgs
  {
    var r := LinkArgsList(s, formats, dylib, tmpdir, obj, out);
    if r.Ok? {
      var fixed := ["-L", Display(s.libPath), "-o", Display(out), Display(obj)];
      var head := HeadArgs(s, dylib, obj, out);
      var tail := TailArgs(s, dylib, out);
      var user := s.linkArgs + s.usedLinkArgs;
      var kindRpath := OutputKindArgs(s, dylib, out) + (if s.rpath then s.rpathFlags else []);
      var libs := UpstreamRustArgs(s, formats, tmpdir, s.crates).value + LocalNativeArgs(s)
        + UpstreamNativeArgs(s).value;
      assert r.value == head + UpstreamRustArgs(s, formats, tmpdir, s.crates).value + LocalNativeArgs(s)
        + UpstreamNativeArgs(s).value + tail;
      Assoc(head + UpstreamRustArgs(s, formats, tmpdir, s.crates).value, LocalNativeArgs(s),
            UpstreamNativeArgs(s).value);
      Assoc(head, UpstreamRustArgs(s, formats, tmpdir, s.crates).value,
            LocalNativeArgs(s) + UpstreamNativeArgs(s).value);
      assert r.value == head + libs + tail;
      Assoc(head, libs, tail);
      assert tail == kindRpath + user by {
        Assoc(kindRpath, s.linkArgs, s.usedLinkArgs);
      }
      PrefixOfAppend(head, libs + tail, 5);
      DropPrefix(fixed, HeadFlags(s, dylib, obj));
      Assoc(head + libs, kindRpath, user);
      SuffixOfAppend(head + libs + kindRpath, user);
    }
  }

  lemma PrefixOfAppend<T>(a: seq<T>, b: seq<T>, n: nat)
    requires n <= |a|
    ensures (a + b)[..n] == a[..n]
  {
  }

  lemma SuffixOfAppend<T>(a: seq<T>, b: seq<T>)
    ensures (a + b)[|a + b| - |b|..] == b
  {
  }

  /** A dylib named by `filename_for_input` on a Unix-like target is linked
      as `-l` with the crate's name and extra filename: the `lib` prefix and
      the suffix come off again. */
  lemma UnixDylibLinkName(s: Session, extra: string, name: string, out: Path)
    requires !s.lto && !s.target.isLikeWindows && s.target.dllPrefix == "lib"
    requires |s.target.dllSuffix| >= 2 && s.target.dllSuffix[0] == '.'
    requires forall i :: 1 <= i < |s.target.dllSuffix| ==> s.target.dllSuffix[i] != '.'
    ensures DynamicCrateArgs(s, LinkOutputs.FilenameForInput(s.target, extra, LinkOutputs.Dylib, name, out))
            == Ok(["-L", Dirname(out), "-l" + name + extra])
  {
    DylibStem(s.target, "lib", extra, name, out);
    var p := LinkOutputs.FilenameForInput(s.target, extra, LinkOutputs.Dylib, name, out);
    var stem := "lib" + (name + extra);
    assert StartsWith(stem, "lib");
    assert stem[3..] == name + extra;
    assert Unlib(s.target, Filestem(p.name)) == name + extra;
    assert "-l" + (name + extra) == "-l" + name + extra;
  }

  /** On Windows the file stem is used whole, so a crate called `libfoo`
      stays `-llibfoo`. */
  lemma WindowsDylibLinkName(s: Session, extra: string, name: string, out: Path)
    requires !s.lto && s.target.isLikeWindows && s.target.dllPrefix == "" && name + extra != ""
    requires |s.target.dllSuffix| >= 2 && s.target.dllSuffix[0] == '.'
    requires forall i :: 1 <= i < |s.target.dllSuffix| ==> s.target.dllSuffix[i] != '.'
    ensures DynamicCrateArgs(s, LinkOutputs.FilenameForInput(s.target, extra, LinkOutputs.Dylib, name, out))
            == Ok(["-L", Dirname(out), "-l" + name + extra])
  {
    DylibStem(s.target, "", extra, name, out);
    var p := LinkOutputs.FilenameForInput(s.target, extra, LinkOutputs.Dylib, name, out);
    assert "" + (name + extra) == name + extra;
    assert Unlib(s.target, Filestem(p.name)) == name + extra;
    assert "-l" + (name + extra) == "-l" + name + extra;
  }

  /** The file stem of a dylib's name is its prefix and library name. */
  lemma DylibStem(t: TargetSpec, prefix: string, extra: string, name: string, out: Path)
    requires t.dllPrefix == prefix && prefix + name + extra != ""
    requires |t.dllSuffix| >= 2 && t.dllSuffix[0] == '.'
    requires forall i :: 1 <= i < |t.dllSuffix| ==> t.dllSuffix[i] != '.'
    ensures var p := LinkOutputs.FilenameForInput(t, extra, LinkOutputs.Dylib, name, out);
      Dirname(p) == Dirname(out) && Filestem(p.name) == prefix + (name + extra)
  {
    var p := LinkOutputs.FilenameForInput(t, extra, LinkOutputs.Dylib, name, out);
    var stem := prefix + (name + extra);
    var ext := t.dllSuffix[1..];
    assert p.name == (stem + ".") + ext;
    assert forall i :: 0 <= i < |ext| ==> ext[i] != '.' by {
      forall i | 0 <= i < |ext| ensures ext[i] != '.' {
        assert ext[i] == t.dllSuffix[i + 1];
      }
    }
    LastDotAfter(stem + ".", ext);
    assert p.name[..|stem|] == stem;
  }

  /** With the Linux base crate `foo` is linked as `-lfoo`. */
  lemma LinuxDylibLinkName(s: Session, out: Path)
    requires !s.lto && s.target == LinuxBase.Base()
    ensures DynamicCrateArgs(s, LinkOutputs.FilenameForInput(s.target, "", LinkOutputs.Dylib, "foo", out))
            == Ok(["-L", Dirname(out), "-lfoo"])
  {
    LinuxBase.Inherited(IsLikeWindows);
    SoSuffix(s.target.dllSuffix);
    UnixDylibLinkName(s, "", "foo", out);
    assert "-l" + "foo" + "" == "-lfoo";
  }

  /** With the Windows base the dylib `libfoo.dll` of crate `libfoo` is
      linked as `-llibfoo`. */
  lemma WindowsDylibKeepsPrefix(s: Session, out: Path)
    requires !s.lto && s.target == WindowsBase.Base()
    ensures DynamicCrateArgs(s, LinkOutputs.FilenameForInput(s.target, "", LinkOutputs.Dylib, "libfoo", out))
            == Ok(["-L", Dirname(out), "-llibfoo"])
  {
    WindowsBase.NamingConvention();
    WindowsBase.Capabilities();
    SoSuffix(s.target.dllSuffix);
    WindowsDylibLinkName(s, "", "libfoo", out);
    assert "-l" + "libfoo" + "" == "-llibfoo";
  }

  lemma SoSuffix(suffix: string)
    requires suffix == ".so" || suffix == ".dll"
    ensures |suffix| >= 2 && suffix[0] == '.' && forall i :: 1 <= i < |suffix| ==> suffix[i] != '.'
  {
  }

  /** Under LTO an rlib named by `filename_for_input` is pruned by the
      crate's own name: the copy is linked exactly when an object other than
      the crate's own remains. */
  lemma LtoRlibPruned(s: Session, tmpdir: Path, extra: string, name: string, out: Path,
                      members: seq<string>)
    requires s.lto
    ensures var p := LinkOutputs.FilenameForInput(s.target, extra, LinkOutputs.Rlib, name, out);
      StaticCrateArgs(s, tmpdir, p, members)
      == (if KeptAfterLto(members, name + extra) then [Display(Join(tmpdir, p.name))] else [])
  {
    LinkOutputs.RlibNameRoundTrip(s.target, extra, name, out);
  }

  /** An rlib holding only the crate's object, its metadata and its bytecode
      disappears from the LTO link line. */
  lemma LtoRlibDropped(s: Session, tmpdir: Path, out: Path)
    requires s.lto && out.name == "libfoo.rlib"
    ensures StaticCrateArgs(s, tmpdir, out, ["foo.o", MetadataFilename, "foo.bytecode.deflate"]) == []
  {
    assert RlibCrateName(out.name) == "foo";
    LtoPruningExamples();
  }

  /** The upstream crates of the link-order scenario: `a`'s archive, then
      `b`'s directory and name. */
  lemma ScenarioRust(s: Session, formats: seq<Option<Linkage>>, tmpdir: Path, a: UsedCrate, b: UsedCrate)
    requires !s.lto && !s.target.isLikeWindows && s.crates == [a, b]
    requires 1 <= a.cnum <= |formats| && formats[a.cnum - 1] == Some(RequireStatic) && a.rlib.Some?
    requires 1 <= b.cnum <= |formats| && formats[b.cnum - 1] == Some(RequireDynamic)
    requires b.dylib.Some? && b.dylib.value.name == "libB.so"
    ensures SourcesKnown(s, formats)
    ensures UpstreamRustArgs(s, formats, tmpdir, s.crates)
            == Ok([Display(a.rlib.value), "-L", Dirname(b.dylib.value), "-lB"])
  {
    assert CrateSourceKnown(s, formats, a) && CrateSourceKnown(s, formats, b);
    LibBStem();
    assert Unlib(s.target, "libB") == "B";
    assert [a, b][..1] == [a] && [a][..0] == [];
    AppendNil([Display(a.rlib.value)]);
    assert UpstreamRustArgs(s, formats, tmpdir, [a]) == Ok([Display(a.rlib.value)]);
    assert "-l" + "B" == "-lB";
    assert DynamicCrateArgs(s, b.dylib.value) == Ok(["-L", Dirname(b.dylib.value), "-lB"]);
    assert CrateArgs(s, formats, tmpdir, b) == Ok(["-L", Dirname(b.dylib.value), "-lB"]);
    assert UpstreamRustArgs(s, formats, tmpdir, s.crates)
      == AndThen(UpstreamRustArgs(s, formats, tmpdir, [a]), CrateArgs(s, formats, tmpdir, b));
    assert [Display(a.rlib.value)] + ["-L", Dirname(b.dylib.value), "-lB"]
      == [Display(a.rlib.value), "-L", Dirname(b.dylib.value), "-lB"];
  }

  lemma LibBStem()
    ensures Filestem("libB.so") == "libB"
  {
    assert "libB.so"[..6] == "libB.s" && "libB.s"[..5] == "libB.";
    assert LastDot("libB.so") == Some(4);
  }

  /** The upstream native libraries of the scenario: only `M`. */
  lemma ScenarioNative(s: Session, a: UsedCrate, b: UsedCrate)
    requires s.crates == [a, b]
    requires a.nativeLibs == [NativeLib(NativeUnknown, "M")] && b.nativeLibs == []
    ensures UpstreamNativeArgs(s) == Ok(["-lM"])
  {
    assert [a, b][..1] == [a] && [a][..0] == [];
    var m := [NativeLib(NativeUnknown, "M")];
    assert AllNativeLibs(s.crates) == m by {
      assert AllNativeLibs([a]) == [] + m;
      AppendNil(m);
    }
    assert m[..0] == [];
    assert "-l" + "M" == "-lM";
    AppendNil(["-lM"]);
    assert UpstreamLibsArgs(m) == AndThen(UpstreamLibsArgs([]), UpstreamLibArgs(m[0]));
  }

  /** The local native library `N` of the scenario is passed as `-lN`. */
  lemma ScenarioLocal(s: Session)
    requires s.usedLibraries == [NativeLib(NativeUnknown, "N")]
    ensures exists j :: 0 <= j < |LocalNativeArgs(s)| && LocalNativeArgs(s)[j] == "-lN"
  {
    var h := !s.target.isLikeOsx;
    var libs := s.usedLibraries;
    assert libs[..0] == [];
    var lla := LocalLibArgs(h, libs[0]);
    assert LocalLibsArgs(h, libs) == lla;
    assert "-l" + "N" == "-lN";
    assert lla[|lla| - 1] == "-lN";
    var search := SearchFlags(s.addlLibSearchPaths) + SearchFlags(s.rustPath);
    assert LocalNativeArgs(s)[|search| + |lla| - 1] == "-lN";
  }

  /** The order of the five arguments the scenario follows, read off the
      parts of the command line. */
  lemma ScenarioOrder(v: seq<string>, head: seq<string>, rust: seq<string>, local: seq<string>,
                      tail: seq<string>, j: nat, obj: string, archive: string)
    requires v == head + rust + local + ["-lM"] + tail
    requires |head| > 4 && head[4] == obj && |rust| == 4 && rust[0] == archive && rust[3] == "-lB"
    requires j < |local| && local[j] == "-lN"
    ensures exists i1, i2, i3, i4, i5 ::
      (0 <= i1 < i2 < i3 < i4 < i5 < |v|
       && v[i1] == obj && v[i2] == archive && v[i3] == "-lB" && v[i4] == "-lN" && v[i5] == "-lM")
  {
    var i := |head|;
    assert v[4] == obj && v[i] == archive && v[i + 3] == "-lB"
      && v[i + 4 + j] == "-lN" && v[i + 4 + |local|] == "-lM";
  }

  /** Crate `a` linked statically and `b` dynamically, a local native
      library `N` and an upstream native library `M` of `a`: the linker sees
      the object, then `a`'s archive, then `-lB`, then `-lN`, then `-lM`. */
  lemma LinkOrderScenario(s: Session, formats: seq<Option<Linkage>>, dylib: bool, tmpdir: Path,
                          obj: Path, out: Path, a: UsedCrate, b: UsedCrate)
    requires !s.lto && !s.target.isLikeWindows && s.crates == [a, b]
    requires 1 <= a.cnum <= |formats| && formats[a.cnum - 1] == Some(RequireStatic) && a.rlib.Some?
    requires 1 <= b.cnum <= |formats| && formats[b.cnum - 1] == Some(RequireDynamic)
    requires b.dylib.Some? && b.dylib.value.name == "libB.so"
    requires s.usedLibraries == [NativeLib(NativeUnknown, "N")]
    requires a.nativeLibs == [NativeLib(NativeUnknown, "M")] && b.nativeLibs == []
    ensures SourcesKnown(s, formats)
    ensures var r := LinkArgsList(s, formats, dylib, tmpdir, obj, out);
      r.Ok? && exists i1, i2, i3, i4, i5 ::
        (0 <= i1 < i2 < i3 < i4 < i5 < |r.value|
         && r.value[i1] == Display(obj) && r.value[i2] == Display(a.rlib.value)
         && r.value[i3] == "-lB" && r.value[i4] == "-lN" && r.value[i5] == "-lM")
  {
    ScenarioRust(s, formats, tmpdir, a, b);
    ScenarioNative(s, a, b);
    ScenarioLocal(s);
    var rust := [Display(a.rlib.value), "-L", Dirname(b.dylib.value), "-lB"];
    var local := LocalNativeArgs(s);
    var j :| 0 <= j < |local| && local[j] == "-lN";
    var head := HeadArgs(s, dylib, obj, out);
    var r := LinkArgsList(s, formats, dylib, tmpdir, obj, out);
    var tail := TailArgs(s, dylib, out);
    var v := head + rust + local + ["-lM"] + tail;
    assert r == Ok(v);
    assert head[4] == Display(obj);
    ScenarioOrder(v, head, rust, local, tail, j, Display(obj), Display(a.rlib.value));
  }
}
