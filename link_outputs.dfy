/** Which artifacts a compilation produces and what they are called: the
    kinds of output, the rule that rejects an output the target cannot
    produce, the default output of a target, the file name each kind gets,
    and the driver loop that walks the requested kinds. */
module LinkOutputs {
  import opened Common
  import opened Paths
  import opened Target
  import WindowsBase
  import LinuxBase
  import DragonflyBase

  datatype CrateType = Executable | Dylib | Rlib | Staticlib

  /** `invalid_output_for_target`: a dynamic library needs dynamic linking,
      an executable needs a target that runs executables. */
  function InvalidOutputForTarget(t: TargetSpec, crateType: CrateType): bool {
    match (t.dynamicLinking, t.executables, crateType)
    case (false, _, Dylib) => true
    case (_, false, Executable) => true
    case _ => false
  }

  /** The rejection happens in exactly those two situations, so rlibs and
      static libraries are valid on every target. */
  lemma InvalidOutputExactly(t: TargetSpec, crateType: CrateType)
    ensures InvalidOutputForTarget(t, crateType)
      <==> (crateType == Dylib && !t.dynamicLinking) || (crateType == Executable && !t.executables)
  {
  }

  /** `default_output_for_target`: an executable, unless the target cannot
      run one, in which case a static library. */
  function DefaultOutputForTarget(t: TargetSpec): (r: CrateType)
    ensures r == Executable || r == Staticlib
  {
    if !t.executables then Staticlib else Executable
  }

  /** The default output is never one the target rejects, and it is an
      executable exactly when executables are possible. */
  lemma DefaultOutputValid(t: TargetSpec)
    ensures !InvalidOutputForTarget(t, DefaultOutputForTarget(t))
    ensures DefaultOutputForTarget(t) == Executable <==> t.executables
  {
  }

  /** None of the three base descriptors rejects any kind of output. */
  lemma BasesAcceptEveryOutput(crateType: CrateType)
    ensures !InvalidOutputForTarget(WindowsBase.Base(), crateType)
    ensures !InvalidOutputForTarget(LinuxBase.Base(), crateType)
    ensures !InvalidOutputForTarget(DragonflyBase.Base(), crateType)
    ensures DefaultOutputForTarget(WindowsBase.Base()) == Executable
  {
    WindowsBase.Capabilities();
    LinuxBase.Capabilities();
    DragonflyBase.Flags();
  }

  // ---------------------------------------------------------------------
  // File names

  /** The extension an executable gets: the target's suffix without its
      leading dot, since `with_extension` adds the dot itself. */
  function ExeExtension(suffix: string): (r: string)
    ensures StartsWith(suffix, ".") ==> "." + r == suffix
    ensures !StartsWith(suffix, ".") ==> r == suffix
  {
    if StartsWith(suffix, ".") then suffix[1..] else suffix
  }

  /** `filename_for_input`, with the executable's extension taken from the
      suffix without its dot. `extra` is the `-C extra-filename` value. */
  function FilenameForInput(t: TargetSpec, extra: string, crateType: CrateType, name: string,
                            out: Path): (r: Path)
    ensures r.dir == out.dir
  {
    var libname := name + extra;
    match crateType
    case Rlib => WithFilename(out, "lib" + libname + ".rlib")
    case Dylib => WithFilename(out, t.dllPrefix + libname + t.dllSuffix)
    case Staticlib => WithFilename(out, "lib" + libname + ".a")
    case Executable => WithExtension(out, ExeExtension(t.exeSuffix))
  }

  /** `filename_for_input` as written: the executable case hands the whole
      suffix, dot included, to `with_extension`. */
  function FilenameForInputAsWritten(t: TargetSpec, extra: string, crateType: CrateType,
                                     name: string, out: Path): (r: Path)
    ensures r.dir == out.dir
    ensures crateType != Executable ==> r == FilenameForInput(t, extra, crateType, name, out)
  {
    match crateType
    case Executable => WithExtension(out, t.exeSuffix)
    case _ => FilenameForInput(t, extra, crateType, name, out)
  }

  /** Libraries are named after the crate, whatever the requested output
      was called: `lib{N}{X}.rlib`, `lib{N}{X}.a` and
      `{prefix}{N}{X}{suffix}`. */
  lemma LibraryNames(t: TargetSpec, extra: string, name: string, out: Path)
    ensures FilenameForInput(t, extra, Rlib, name, out).name == "lib" + name + extra + ".rlib"
    ensures FilenameForInput(t, extra, Staticlib, name, out).name == "lib" + name + extra + ".a"
    ensures FilenameForInput(t, extra, Dylib, name, out).name
            == t.dllPrefix + name + extra + t.dllSuffix
  {
  }

  /** The crate name can be cut back out of an rlib's file name by dropping
      three characters in front and five behind, which is what the LTO
      relinker does. */
  lemma RlibNameRoundTrip(t: TargetSpec, extra: string, name: string, out: Path)
    ensures var n := FilenameForInput(t, extra, Rlib, name, out).name;
      |n| >= 8 && n[3..|n| - 5] == name + extra
  {
    var n := FilenameForInput(t, extra, Rlib, name, out).name;
    assert n == "lib" + (name + extra) + ".rlib";
  }

  /** Crate `foo`: `libfoo.rlib`, `libfoo.a`, `foo.dll` with the Windows
      base and `libfoo.so` with the Linux base. */
  lemma FooNames(out: Path)
    ensures FilenameForInput(WindowsBase.Base(), "", Rlib, "foo", out).name == "libfoo.rlib"
    ensures FilenameForInput(WindowsBase.Base(), "", Staticlib, "foo", out).name == "libfoo.a"
    ensures FilenameForInput(WindowsBase.Base(), "", Dylib, "foo", out).name == "foo.dll"
    ensures FilenameForInput(LinuxBase.Base(), "", Dylib, "foo", out).name == "libfoo.so"
  {
    WindowsBase.NamingConvention();
    LinuxBase.Inherited(DllPrefix);
    LibraryNames(WindowsBase.Base(), "", "foo", out);
    LibraryNames(LinuxBase.Base(), "", "foo", out);
  }

  /** An executable keeps the requested name with the target's suffix as
      its extension: `foo` becomes `foo.exe` with the Windows base and stays
      `foo` with the Linux base. */
  lemma ExecutableNames(dir: string)
    ensures FilenameForInput(WindowsBase.Base(), "", Executable, "foo", Path(dir, "foo"))
            == Path(dir, "foo.exe")
    ensures FilenameForInput(LinuxBase.Base(), "", Executable, "foo", Path(dir, "foo"))
            == Path(dir, "foo")
  {
    WindowsBase.NamingConvention();
    LinuxBase.Inherited(ExeSuffix);
    assert ExeExtension(".exe") == "exe";
    assert LastDot("foo").None?;
  }

  /** As written, the Windows executable `foo` is named `foo..exe`. */
  lemma DoubleDotExecutable(dir: string)
    ensures FilenameForInputAsWritten(WindowsBase.Base(), "", Executable, "foo", Path(dir, "foo"))
            == Path(dir, "foo..exe")
  {
    WindowsBase.NamingConvention();
    assert LastDot("foo").None?;
  }

  /** With a suffix that starts with a dot, the corrected executable name
      ends in exactly that suffix after the file stem. */
  lemma ExecutableSuffix(t: TargetSpec, extra: string, name: string, out: Path)
    requires HasFilename(out) && StartsWith(t.exeSuffix, ".") && |t.exeSuffix| >= 2
    requires forall i :: 1 <= i < |t.exeSuffix| ==> t.exeSuffix[i] != '.'
    ensures var r := FilenameForInput(t, extra, Executable, name, out);
      Filestem(r.name) + t.exeSuffix == r.name
  {
    var ext := t.exeSuffix[1..];
    assert ExeExtension(t.exeSuffix) == ext;
    assert forall i :: 0 <= i < |ext| ==> ext[i] != '.' by {
      forall i | 0 <= i < |ext| ensures ext[i] != '.' {
        assert ext[i] == t.exeSuffix[i + 1];
      }
    }
    WithExtensionStem(out, ext);
    assert "." + ext == t.exeSuffix;
  }

  // ---------------------------------------------------------------------
  // The driver loop

  /** The output names the driver was given: an explicit single output
      file, if any, and the path an executable would get. */
  datatype OutputFilenames = OutputFilenames(singleOutputFile: Option<Path>, exePath: Path)

  /** The path `link_binary_output` produces for one kind of output. */
  function OutputFilename(t: TargetSpec, extra: string, crateType: CrateType, name: string,
                          outputs: OutputFilenames): (r: Path)
    ensures outputs.singleOutputFile.Some? ==> r == outputs.singleOutputFile.value
    ensures outputs.singleOutputFile.None? ==> r.dir == outputs.exePath.dir
  {
    match outputs.singleOutputFile
    case Some(file) => file
    case None => FilenameForInput(t, extra, crateType, name, outputs.exePath)
  }

  /** `link_binary`: for each requested kind in order, stop with that kind
      if the target rejects it, otherwise record the artifact's path.
      Writing the artifacts is modelled elsewhere. */
  method LinkBinary(t: TargetSpec, extra: string, crateTypes: seq<CrateType>, name: string,
                    outputs: OutputFilenames) returns (r: Result<seq<Path>, CrateType>)
    ensures r.Err? <==> exists i :: 0 <= i < |crateTypes| && InvalidOutputForTarget(t, crateTypes[i])
    ensures r.Err? ==> exists i :: (0 <= i < |crateTypes| && crateTypes[i] == r.error
                                    && InvalidOutputForTarget(t, r.error)
                                    && forall j :: 0 <= j < i ==> !InvalidOutputForTarget(t, crateTypes[j]))
    ensures r.Ok? ==> |r.value| == |crateTypes|
    ensures r.Ok? ==> forall i :: 0 <= i < |crateTypes| ==>
                        r.value[i] == OutputFilename(t, extra, crateTypes[i], name, outputs)
  {
    var outFilenames: seq<Path> := [];
    var i := 0;
    while i < |crateTypes|
      invariant 0 <= i <= |crateTypes|
      invariant forall j :: 0 <= j < i ==> !InvalidOutputForTarget(t, crateTypes[j])
      invariant |outFilenames| == i
      invariant forall j :: 0 <= j < i ==>
          outFilenames[j] == OutputFilename(t, extra, crateTypes[j], name, outputs)
    {
      if InvalidOutputForTarget(t, crateTypes[i]) {
        return Err(crateTypes[i]);
      }
      outFilenames := outFilenames + [OutputFilename(t, extra, crateTypes[i], name, outputs)];
      i := i + 1;
    }
    r := Ok(outFilenames);
  }
}
