/** Building rlibs and static libraries. The archive tool is not modelled:
    an archive under construction is the sequence of steps taken on it
    (members added, symbol-table updates, writes and reopenings), and an
    existing archive is the sequence of its member names. */
module LinkArchive {
  import opened Common
  import opened Paths
  import opened Target
  import opened CrateStore

  /** The reserved member name under which an rlib stores its metadata. */
  const MetadataFilename := "rust.metadata.bin"

  /** Why a file is added to an rlib: the crate's object code, or one of the
      two non-object ("magic") members. */
  datatype FileRole = Object | Metadata | Bytecode

  datatype Member =
    | File(path: Path, role: FileRole)
    | NativeLibrary(lib: string)
    | UpstreamRlib(path: Path, crate: string, lto: bool)

  datatype Step = Added(member: Member) | SymbolsUpdated | Built | Extended

  predicate IsMagic(m: Member) {
    m.File? && m.role != Object
  }

  predicate NoMagic(ms: seq<Member>) {
    forall i :: 0 <= i < |ms| ==> !IsMagic(ms[i])
  }

  /** The members an archive holds after the given steps, in the order
      they were added. */
  function Members(log: seq<Step>): (r: seq<Member>)
    ensures |r| <= |log|
  {
    if log == [] then []
    else Members(log[..|log| - 1]) + (if log[|log| - 1].Added? then [log[|log| - 1].member] else [])
  }

  lemma {:induction false} MembersAppend(a: seq<Step>, b: seq<Step>)
    ensures Members(a + b) == Members(a) + Members(b)
  {
    if b == [] {
      assert a + b == a;
    } else {
      assert (a + b)[..|a + b| - 1] == a + b[..|b| - 1];
      MembersAppend(a, b[..|b| - 1]);
    }
  }

  /** The members after a prefix of the steps are a prefix of the members. */
  lemma {:induction false} MembersPrefix(log: seq<Step>, i: nat)
    requires i <= |log|
    ensures |Members(log[..i])| <= |Members(log)|
    ensures Members(log[..i]) == Members(log)[..|Members(log[..i])|]
  {
    assert log == log[..i] + log[i..];
    MembersAppend(log[..i], log[i..]);
  }

  lemma MembersOne(s: Step)
    ensures Members([s]) == if s.Added? then [s.member] else []
  {
    assert [s][..0] == [];
  }

  lemma MembersTwo(m: Member, n: Member)
    ensures Members([Added(m), Added(n)]) == [m, n]
  {
    MembersAppend([Added(m)], [Added(n)]);
    MembersOne(Added(m));
    MembersOne(Added(n));
  }

  lemma {:induction false} MembersNone(log: seq<Step>)
    requires forall i :: 0 <= i < |log| ==> !log[i].Added?
    ensures Members(log) == []
  {
    if log != [] {
      MembersNone(log[..|log| - 1]);
    }
  }

  // ---------------------------------------------------------------------
  // The builder

  /** An archive under construction for the file `dst`. `build` and
      `extend` consume and rebuild the builder in the source; here they
      are steps on the same object. */
  class ArchiveBuilder {
    const dst: Path
    var log: seq<Step>

    constructor Create(dst: Path)
      ensures this.dst == dst && log == []
    {
      this.dst := dst;
      log := [];
    }

    method AddFile(p: Path, role: FileRole)
      modifies this
      ensures log == old(log) + [Added(File(p, role))]
    {
      log := log + [Added(File(p, role))];
    }

    /** Adds the contents of the static library `name`, searched for on the
        archive search path. */
    method AddNativeLibrary(name: string)
      modifies this
      ensures log == old(log) + [Added(NativeLibrary(name))]
    {
      log := log + [Added(NativeLibrary(name))];
    }

    /** Adds the members of an upstream rlib; with LTO the archive tool
        leaves out that crate's object file. */
    method AddRlib(p: Path, crate: string, lto: bool)
      modifies this
      ensures log == old(log) + [Added(UpstreamRlib(p, crate, lto))]
    {
      log := log + [Added(UpstreamRlib(p, crate, lto))];
    }

    method UpdateSymbols()
      modifies this
      ensures log == old(log) + [SymbolsUpdated]
    {
      log := log + [SymbolsUpdated];
    }

    /** `build()`: run the archiver and write the archive out. */
    method Build()
      modifies this
      ensures log == old(log) + [Built]
    {
      log := log + [Built];
    }

    /** `build().extend()`: write the archive out and reopen it for
        further appends. */
    method BuildAndExtend()
      modifies this
      ensures log == old(log) + [Built, Extended]
    {
      log := log + [Built, Extended];
    }
  }

  // ---------------------------------------------------------------------
  // rlibs

  /** Where the metadata is written before it is added. */
  function MetadataPath(tmpdir: Path): (r: Path)
    ensures r.name == MetadataFilename
  {
    Join(tmpdir, MetadataFilename)
  }

  /** The compressed bitcode sits beside the object file. */
  function BytecodePath(obj: Path): (r: Path)
    ensures r.dir == obj.dir
  {
    WithExtension(obj, "bytecode.deflate")
  }

  /** The bitcode member's name is longer than 16 bytes, the length that
      upsets the debugger. */
  lemma BytecodeNameLong(obj: Path)
    requires HasFilename(obj)
    ensures |BytecodePath(obj).name| > 16
  {
    var dot := LastDot(obj.name);
    var idx := if dot.None? || dot.value == 0 then |obj.name| else dot.value;
    assert BytecodePath(obj).name == obj.name[..idx] + "." + "bytecode.deflate";
  }

  /** The builder steps of the loop over the crate's native libraries. */
  function NativeSteps(libs: seq<NativeLib>): seq<Step> {
    if libs == [] then []
    else
      var l := libs[|libs| - 1];
      NativeSteps(libs[..|libs| - 1]) + (if l.kind == NativeStatic then [Added(NativeLibrary(l.name))] else [])
  }

  /** Exactly the static libraries are added: each added member is one of
      them, and each of them is added. */
  lemma NativeStepsMembers(libs: seq<NativeLib>)
    ensures forall m :: m in Members(NativeSteps(libs)) ==>
      exists l :: l in libs && l.kind == NativeStatic && m == NativeLibrary(l.name)
    ensures forall l :: l in libs && l.kind == NativeStatic ==> NativeLibrary(l.name) in Members(NativeSteps(libs))
  {
    NativeStepsOnly(libs);
    NativeStepsAll(libs);
  }

  /** The members of the first libraries' steps, then the last one's. */
  lemma NativeStepsLast(libs: seq<NativeLib>)
    requires libs != []
    ensures var l := libs[|libs| - 1];
      Members(NativeSteps(libs))
      == Members(NativeSteps(libs[..|libs| - 1]))
         + (if l.kind == NativeStatic then [NativeLibrary(l.name)] else [])
  {
    var l := libs[|libs| - 1];
    var tail := if l.kind == NativeStatic then [Added(NativeLibrary(l.name))] else [];
    MembersAppend(NativeSteps(libs[..|libs| - 1]), tail);
    if l.kind == NativeStatic {
      MembersOne(Added(NativeLibrary(l.name)));
    } else {
      MembersNone(tail);
    }
  }

  /** Each added member is one of the static libraries. */
  lemma {:induction false} NativeStepsOnly(libs: seq<NativeLib>)
    ensures forall m :: m in Members(NativeSteps(libs)) ==>
      exists l :: l in libs && l.kind == NativeStatic && m == NativeLibrary(l.name)
  {
    if libs != [] {
      var init := libs[..|libs| - 1];
      var l := libs[|libs| - 1];
      NativeStepsOnly(init);
      NativeStepsLast(libs);
      assert forall x :: x in init ==> x in libs;
      assert l in libs;
    }
  }

  /** Each static library is added. */
  lemma {:induction false} NativeStepsAll(libs: seq<NativeLib>)
    ensures forall l :: l in libs && l.kind == NativeStatic ==> NativeLibrary(l.name) in Members(NativeSteps(libs))
  {
    if libs != [] {
      var init := libs[..|libs| - 1];
      NativeStepsAll(init);
      NativeStepsLast(libs);
      assert libs == init + [libs[|libs| - 1]];
    }
  }

  /** The object file, the static native libraries, then the first
      symbol-table update; on OS X the archive is then written and
      reopened. */
  function ObjectSteps(t: TargetSpec, obj: Path, libs: seq<NativeLib>): seq<Step> {
    [Added(File(obj, Object))] + NativeSteps(libs) + [SymbolsUpdated]
      + (if t.isLikeOsx then [Built, Extended] else [])
  }

  /** The metadata and compressed bitcode, then (except on OS X, where the
      update would fail) a second symbol-table update. */
  function MagicSteps(t: TargetSpec, obj: Path, tmpdir: Path): seq<Step> {
    [Added(File(MetadataPath(tmpdir), Metadata)), Added(File(BytecodePath(obj), Bytecode))]
      + (if t.isLikeOsx then [] else [SymbolsUpdated])
  }

  /** The steps `link_rlib` takes; `withMetadata` is whether a translation
      was passed, that is whether this is a full rlib. */
  function RlibLog(t: TargetSpec, withMetadata: bool, obj: Path, libs: seq<NativeLib>,
                   tmpdir: Path): seq<Step> {
    ObjectSteps(t, obj, libs) + (if withMetadata then MagicSteps(t, obj, tmpdir) else [])
  }

  /** `link_rlib`. Writing the metadata and compressing the bitcode are
      file operations and are not modelled; their results are added. */
  method LinkRlib(t: TargetSpec, withMetadata: bool, obj: Path, out: Path,
                  libs: seq<NativeLib>, tmpdir: Path) returns (ab: ArchiveBuilder)
    ensures fresh(ab) && ab.dst == out
    ensures ab.log == RlibLog(t, withMetadata, obj, libs, tmpdir)
  {
    ab := new ArchiveBuilder.Create(out);
    ab.AddFile(obj, Object);
    var i := 0;
    while i < |libs|
      invariant 0 <= i <= |libs|
      invariant ab.log == [Added(File(obj, Object))] + NativeSteps(libs[..i])
    {
      assert libs[..i + 1][..i] == libs[..i];
      if libs[i].kind == NativeStatic {
        ab.AddNativeLibrary(libs[i].name);
      }
      i := i + 1;
    }
    assert libs[..i] == libs;
    ab.UpdateSymbols();
    if t.isLikeOsx {
      ab.BuildAndExtend();
    }
    if withMetadata {
      ab.AddFile(MetadataPath(tmpdir), Metadata);
      ab.AddFile(BytecodePath(obj), Bytecode);
      if !t.isLikeOsx {
        ab.UpdateSymbols();
      }
    }
  }

  lemma ObjectMembers(t: TargetSpec, obj: Path, libs: seq<NativeLib>)
    ensures Members(ObjectSteps(t, obj, libs)) == [File(obj, Object)] + Members(NativeSteps(libs))
  {
    var head := [Added(File(obj, Object))] + NativeSteps(libs);
    var tail := [SymbolsUpdated] + (if t.isLikeOsx then [Built, Extended] else []);
    MembersNone(tail);
    assert ObjectSteps(t, obj, libs) == head + tail;
    MembersAppend(head, tail);
    MembersAppend([Added(File(obj, Object))], NativeSteps(libs));
    MembersOne(Added(File(obj, Object)));
  }

  lemma MagicMembers(t: TargetSpec, obj: Path, tmpdir: Path)
    ensures Members(MagicSteps(t, obj, tmpdir))
         == [File(MetadataPath(tmpdir), Metadata), File(BytecodePath(obj), Bytecode)]
  {
    var adds := [Added(File(MetadataPath(tmpdir), Metadata)), Added(File(BytecodePath(obj), Bytecode))];
    var tail := if t.isLikeOsx then [] else [SymbolsUpdated];
    MembersAppend(adds, tail);
    MembersTwo(File(MetadataPath(tmpdir), Metadata), File(BytecodePath(obj), Bytecode));
    if !t.isLikeOsx {
      MembersOne(SymbolsUpdated);
    }
  }

  /** A stripped rlib holds the object file and then what the loop over
      the native libraries added, and nothing else. */
  lemma RlibWithoutMetadata(t: TargetSpec, obj: Path, libs: seq<NativeLib>, tmpdir: Path)
    ensures Members(RlibLog(t, false, obj, libs, tmpdir))
         == [File(obj, Object)] + Members(NativeSteps(libs))
  {
    AppendNil(ObjectSteps(t, obj, libs));
    ObjectMembers(t, obj, libs);
  }

  /** A full rlib holds the same members followed by the metadata and the
      compressed bitcode. */
  lemma RlibWithMetadata(t: TargetSpec, obj: Path, libs: seq<NativeLib>, tmpdir: Path)
    ensures Members(RlibLog(t, true, obj, libs, tmpdir))
         == Members(RlibLog(t, false, obj, libs, tmpdir))
            + [File(MetadataPath(tmpdir), Metadata), File(BytecodePath(obj), Bytecode)]
  {
    MembersAppend(ObjectSteps(t, obj, libs), MagicSteps(t, obj, tmpdir));
    MagicMembers(t, obj, tmpdir);
    AppendNil(ObjectSteps(t, obj, libs));
  }

  /** The object file is the first member. */
  lemma RlibObjectFirst(t: TargetSpec, withMetadata: bool, obj: Path, libs: seq<NativeLib>,
                        tmpdir: Path)
    ensures var ms := Members(RlibLog(t, withMetadata, obj, libs, tmpdir));
      |ms| >= 1 && ms[0] == File(obj, Object)
  {
    RlibWithoutMetadata(t, obj, libs, tmpdir);
    if withMetadata {
      RlibWithMetadata(t, obj, libs, tmpdir);
    }
  }

  /** The object phase adds no magic member. */
  lemma ObjectPhaseNoMagic(t: TargetSpec, obj: Path, libs: seq<NativeLib>)
    ensures NoMagic(Members(ObjectSteps(t, obj, libs)))
  {
    ObjectMembers(t, obj, libs);
    NativeStepsMembers(libs);
    var ns := Members(NativeSteps(libs));
    var ms := Members(ObjectSteps(t, obj, libs));
    forall k | 0 <= k < |ms| ensures !IsMagic(ms[k]) {
      if k > 0 {
        assert ms[k] == ns[k - 1];
        assert ns[k - 1] in ns;
      }
    }
  }

  /** Magic members exist exactly in a full rlib, and every one of them
      comes after every object and native member. */
  lemma RlibMagicLast(t: TargetSpec, withMetadata: bool, obj: Path, libs: seq<NativeLib>,
                      tmpdir: Path)
    ensures var ms := Members(RlibLog(t, withMetadata, obj, libs, tmpdir));
      (forall i, j :: 0 <= i < j < |ms| && IsMagic(ms[i]) ==> IsMagic(ms[j]))
      && ((exists i :: 0 <= i < |ms| && IsMagic(ms[i])) <==> withMetadata)
  {
    var base := Members(RlibLog(t, false, obj, libs, tmpdir));
    ObjectPhaseNoMagic(t, obj, libs);
    AppendNil(ObjectSteps(t, obj, libs));
    assert NoMagic(base);
    if withMetadata {
      RlibWithMetadata(t, obj, libs, tmpdir);
      var ms := Members(RlibLog(t, true, obj, libs, tmpdir));
      assert IsMagic(ms[|base|]);
      forall i, j | 0 <= i < j < |ms| && IsMagic(ms[i]) ensures IsMagic(ms[j]) {
        assert i >= |base|;
      }
    }
  }

  /** On OS X the symbol table is only ever updated while the archive holds
      no magic member; elsewhere the last step updates it. */
  lemma RlibSymbolTable(t: TargetSpec, withMetadata: bool, obj: Path, libs: seq<NativeLib>,
                        tmpdir: Path)
    ensures var log := RlibLog(t, withMetadata, obj, libs, tmpdir);
      (t.isLikeOsx ==> forall i :: 0 <= i < |log| && log[i] == SymbolsUpdated ==> NoMagic(Members(log[..i])))
      && (!t.isLikeOsx ==> log[|log| - 1] == SymbolsUpdated)
  {
    var log := RlibLog(t, withMetadata, obj, libs, tmpdir);
    var head := ObjectSteps(t, obj, libs);
    var tail := if withMetadata then MagicSteps(t, obj, tmpdir) else [];
    assert log == head + tail;
    if t.isLikeOsx {
      ObjectPhaseNoMagic(t, obj, libs);
      forall i | 0 <= i < |log| && log[i] == SymbolsUpdated ensures NoMagic(Members(log[..i])) {
        assert i < |head|;
        assert log[..i] == head[..i];
        MembersPrefix(head, i);
      }
    }
  }

  // ---------------------------------------------------------------------
  // Static libraries

  /** The support libraries every static library carries. */
  function RuntimeSteps(t: TargetSpec): seq<Step> {
    (if !t.disableStackChecking then [Added(NativeLibrary("morestack"))] else [])
      + [Added(NativeLibrary("compiler-rt"))]
  }

  /** The upstream rlibs that were found, in crate order. */
  function RlibSteps(crates: seq<UsedCrate>, lto: bool): seq<Step> {
    if crates == [] then []
    else
      var c := crates[|crates| - 1];
      RlibSteps(crates[..|crates| - 1], lto)
        + (if c.rlib.Some? then [Added(UpstreamRlib(c.rlib.value, c.name, lto))] else [])
  }

  /** The members those steps add: one per crate whose rlib was found. */
  lemma RlibStepsMembers(crates: seq<UsedCrate>, lto: bool)
    ensures var ms := Members(RlibSteps(crates, lto));
      (forall i :: 0 <= i < |crates| && crates[i].rlib.Some? ==>
         UpstreamRlib(crates[i].rlib.value, crates[i].name, lto) in ms)
      && forall m :: m in ms ==> m.UpstreamRlib? && m.lto == lto
  {
    RlibStepsFound(crates, lto);
    RlibStepsOnly(crates, lto);
  }

  /** The steps of the first crates and of the last one. */
  lemma RlibStepsLast(crates: seq<UsedCrate>, lto: bool)
    requires crates != []
    ensures var c := crates[|crates| - 1];
      Members(RlibSteps(crates, lto))
      == Members(RlibSteps(crates[..|crates| - 1], lto))
         + (if c.rlib.Some? then [UpstreamRlib(c.rlib.value, c.name, lto)] else [])
  {
    var c := crates[|crates| - 1];
    var tail := if c.rlib.Some? then [Added(UpstreamRlib(c.rlib.value, c.name, lto))] else [];
    MembersAppend(RlibSteps(crates[..|crates| - 1], lto), tail);
    if c.rlib.Some? {
      MembersOne(Added(UpstreamRlib(c.rlib.value, c.name, lto)));
    } else {
      assert Members(tail) == [];
    }
  }

  /** Every found rlib is merged. */
  lemma {:induction false} RlibStepsFound(crates: seq<UsedCrate>, lto: bool)
    ensures forall i :: 0 <= i < |crates| && crates[i].rlib.Some? ==>
      UpstreamRlib(crates[i].rlib.value, crates[i].name, lto) in Members(RlibSteps(crates, lto))
  {
    if crates != [] {
      var init := crates[..|crates| - 1];
      RlibStepsFound(init, lto);
      RlibStepsLast(crates, lto);
      forall i | 0 <= i < |crates| && crates[i].rlib.Some?
        ensures UpstreamRlib(crates[i].rlib.value, crates[i].name, lto) in Members(RlibSteps(crates, lto))
      {
        if i < |init| {
          assert crates[i] == init[i];
        }
      }
    }
  }

  /** Nothing but upstream rlibs, with the session's LTO flag, is merged. */
  lemma {:induction false} RlibStepsOnly(crates: seq<UsedCrate>, lto: bool)
    ensures forall m :: m in Members(RlibSteps(crates, lto)) ==> m.UpstreamRlib? && m.lto == lto
  {
    if crates != [] {
      RlibStepsOnly(crates[..|crates| - 1], lto);
      RlibStepsLast(crates, lto);
    }
  }

  function StaticlibLog(t: TargetSpec, obj: Path, libs: seq<NativeLib>, tmpdir: Path,
                        crates: seq<UsedCrate>, lto: bool): seq<Step> {
    RlibLog(t, false, obj, libs, tmpdir) + (if t.isLikeOsx then [Built, Extended] else [])
      + RuntimeSteps(t) + RlibSteps(crates, lto) + [SymbolsUpdated, Built]
  }

  datatype Diagnostic = Error(msg: string) | Warning(msg: string) | Note(msg: string)

  function MissingRlib(name: string): Diagnostic {
    Error("could not find rlib for: `" + name + "`")
  }

  /** One error per crate whose rlib is missing, in crate order. */
  function MissingRlibErrors(crates: seq<UsedCrate>): seq<Diagnostic> {
    if crates == [] then []
    else
      var c := crates[|crates| - 1];
      MissingRlibErrors(crates[..|crates| - 1]) + (if c.rlib.None? then [MissingRlib(c.name)] else [])
  }

  /** The native libraries of the crates whose rlib was found, in crate
      order and with duplicates kept. */
  function NativeDeps(crates: seq<UsedCrate>): seq<NativeLib> {
    if crates == [] then []
    else
      var c := crates[|crates| - 1];
      NativeDeps(crates[..|crates| - 1]) + (if c.rlib.Some? then c.nativeLibs else [])
  }

  function KindName(k: NativeKind): string {
    match k
    case NativeStatic => "static library"
    case NativeUnknown => "library"
    case NativeFramework => "framework"
  }

  const NativeArtifactsWarning := "link against the following native artifacts when linking against this static library"
  const NativeArtifactsNote := "the order and any duplication can be significant on some platforms, and so may need to be preserved"

  function NativeNotes(libs: seq<NativeLib>): (r: seq<Diagnostic>)
    ensures |r| == |libs|
    ensures forall i :: 0 <= i < |r| ==> r[i] == Note(KindName(libs[i].kind) + ": " + libs[i].name)
  {
    seq(|libs|, i requires 0 <= i < |libs| => Note(KindName(libs[i].kind) + ": " + libs[i].name))
  }

  /** Everything `link_staticlib` reports, in order. */
  function StaticlibDiagnostics(crates: seq<UsedCrate>): seq<Diagnostic> {
    var deps := NativeDeps(crates);
    MissingRlibErrors(crates)
      + (if deps != [] then [Warning(NativeArtifactsWarning), Note(NativeArtifactsNote)] else [])
      + NativeNotes(deps)
  }

  /** The loop of `link_staticlib` over the statically required crates:
      each found rlib is merged in and its native libraries collected; a
      missing one is reported and skipped. */
  method AddUpstreamRlibs(ab: ArchiveBuilder, crates: seq<UsedCrate>, lto: bool)
    returns (diags: seq<Diagnostic>, allNativeLibs: seq<NativeLib>)
    modifies ab
    ensures ab.log == old(ab.log) + RlibSteps(crates, lto)
    ensures diags == MissingRlibErrors(crates)
    ensures allNativeLibs == NativeDeps(crates)
  {
    diags := [];
    allNativeLibs := [];
    var i := 0;
    while i < |crates|
      invariant 0 <= i <= |crates|
      invariant ab.log == old(ab.log) + RlibSteps(crates[..i], lto)
      invariant diags == MissingRlibErrors(crates[..i])
      invariant allNativeLibs == NativeDeps(crates[..i])
    {
      assert crates[..i + 1][..i] == crates[..i];
      var c := crates[i];
      match c.rlib {
        case None =>
          diags := diags + [MissingRlib(c.name)];
        case Some(p) =>
          ab.AddRlib(p, c.name, lto);
          allNativeLibs := allNativeLibs + c.nativeLibs;
      }
      i := i + 1;
    }
    assert crates[..i] == crates;
  }

  /** One note per native dependency, naming its kind. */
  method NoteNativeLibs(libs: seq<NativeLib>) returns (notes: seq<Diagnostic>)
    ensures notes == NativeNotes(libs)
  {
    notes := [];
    var j := 0;
    while j < |libs|
      invariant 0 <= j <= |libs|
      invariant notes == NativeNotes(libs[..j])
    {
      var l := libs[j];
      notes := notes + [Note(KindName(l.kind) + ": " + l.name)];
      j := j + 1;
    }
    assert libs[..j] == libs;
  }

  /** `link_staticlib`: a stripped rlib, the support libraries, and every
      found upstream rlib, then one symbol-table update and a write. */
  method LinkStaticlib(t: TargetSpec, obj: Path, out: Path, libs: seq<NativeLib>, tmpdir: Path,
                       crates: seq<UsedCrate>, lto: bool)
    returns (ab: ArchiveBuilder, diags: seq<Diagnostic>)
    ensures fresh(ab) && ab.dst == out
    ensures ab.log == StaticlibLog(t, obj, libs, tmpdir, crates, lto)
    ensures diags == StaticlibDiagnostics(crates)
  {
    ab := LinkRlib(t, false, obj, out, libs, tmpdir);
    if t.isLikeOsx {
      ab.BuildAndExtend();
    }
    if !t.disableStackChecking {
      ab.AddNativeLibrary("morestack");
    }
    ab.AddNativeLibrary("compiler-rt");
    ghost var start := ab.log;
    assert start == RlibLog(t, false, obj, libs, tmpdir) + (if t.isLikeOsx then [Built, Extended] else [])
                    + RuntimeSteps(t);
    var errors, allNativeLibs := AddUpstreamRlibs(ab, crates, lto);
    ab.UpdateSymbols();
    ab.Build();
    diags := errors;
    if allNativeLibs != [] {
      diags := diags + [Warning(NativeArtifactsWarning), Note(NativeArtifactsNote)];
    }
    var notes := NoteNativeLibs(allNativeLibs);
    diags := diags + notes;
  }

  /** The support libraries are plain native members. */
  lemma RuntimeMembers(t: TargetSpec)
    ensures var ms := Members(RuntimeSteps(t));
      NoMagic(ms) && NativeLibrary("compiler-rt") in ms
      && (!t.disableStackChecking ==> NativeLibrary("morestack") in ms)
  {
    var noStack := if !t.disableStackChecking then [Added(NativeLibrary("morestack"))] else [];
    MembersAppend(noStack, [Added(NativeLibrary("compiler-rt"))]);
    MembersOne(Added(NativeLibrary("compiler-rt")));
    if !t.disableStackChecking {
      MembersOne(Added(NativeLibrary("morestack")));
    } else {
      MembersNone(noStack);
    }
  }

  /** The members of a static library, part by part. */
  lemma StaticlibParts(t: TargetSpec, obj: Path, libs: seq<NativeLib>, tmpdir: Path,
                       crates: seq<UsedCrate>, lto: bool)
    ensures Members(StaticlibLog(t, obj, libs, tmpdir, crates, lto))
         == Members(RlibLog(t, false, obj, libs, tmpdir)) + Members(RuntimeSteps(t))
            + Members(RlibSteps(crates, lto))
  {
    var rl := RlibLog(t, false, obj, libs, tmpdir);
    var ext := if t.isLikeOsx then [Built, Extended] else [];
    var rt := RuntimeSteps(t);
    var ups := RlibSteps(crates, lto);
    var fin := [SymbolsUpdated, Built];
    assert StaticlibLog(t, obj, libs, tmpdir, crates, lto) == rl + ext + rt + ups + fin;
    var a := Members(rl);
    assert Members(rl + ext) == a by {
      MembersNone(ext);
      MembersAppend(rl, ext);
      AppendNil(a);
    }
    assert Members(rl + ext + rt) == a + Members(rt) by {
      MembersAppend(rl + ext, rt);
    }
    assert Members(rl + ext + rt + ups) == a + Members(rt) + Members(ups) by {
      MembersAppend(rl + ext + rt, ups);
    }
    assert Members(rl + ext + rt + ups + fin) == a + Members(rt) + Members(ups) by {
      MembersNone(fin);
      MembersAppend(rl + ext + rt + ups, fin);
      AppendNil(a + Members(rt) + Members(ups));
    }
  }

  /** A static library holds the stripped rlib's members, the support
      libraries and the found upstream rlibs, never a magic member, and
      its symbol table is updated once, just before the final write. */
  lemma StaticlibMembers(t: TargetSpec, obj: Path, libs: seq<NativeLib>, tmpdir: Path,
                         crates: seq<UsedCrate>, lto: bool)
    ensures var log := StaticlibLog(t, obj, libs, tmpdir, crates, lto);
      var ms := Members(log);
      |ms| >= 1 && ms[0] == File(obj, Object)
      && NoMagic(ms)
      && (forall i :: 0 <= i < |crates| && crates[i].rlib.Some? ==>
            UpstreamRlib(crates[i].rlib.value, crates[i].name, lto) in ms)
      && NativeLibrary("compiler-rt") in ms
      && (!t.disableStackChecking ==> NativeLibrary("morestack") in ms)
      && log[|log| - 2..] == [SymbolsUpdated, Built]
  {
    var a := Members(RlibLog(t, false, obj, libs, tmpdir));
    var b := Members(RuntimeSteps(t));
    var c := Members(RlibSteps(crates, lto));
    StaticlibParts(t, obj, libs, tmpdir, crates, lto);
    RlibWithoutMetadata(t, obj, libs, tmpdir);
    RlibMagicLast(t, false, obj, libs, tmpdir);
    RuntimeMembers(t);
    RlibStepsMembers(crates, lto);
    var ms := a + b + c;
    assert NoMagic(ms) by {
      forall i | 0 <= i < |ms| ensures !IsMagic(ms[i]) {
        if i < |a| {
          assert ms[i] == a[i];
        } else if i < |a| + |b| {
          assert ms[i] == b[i - |a|];
        } else {
          assert ms[i] == c[i - |a| - |b|];
          assert ms[i] in c;
        }
      }
    }
  }

  /** One error per crate whose rlib is missing, naming that crate, and
      no other error. */
  lemma {:induction false} MissingRlibErrorsExactly(crates: seq<UsedCrate>)
    ensures forall d :: d in MissingRlibErrors(crates) ==>
      exists i :: 0 <= i < |crates| && crates[i].rlib.None? && d == MissingRlib(crates[i].name)
    ensures forall i :: 0 <= i < |crates| && crates[i].rlib.None? ==>
      MissingRlib(crates[i].name) in MissingRlibErrors(crates)
  {
    if crates != [] {
      var init := crates[..|crates| - 1];
      MissingRlibErrorsExactly(init);
      forall d | d in MissingRlibErrors(crates)
        ensures exists i :: 0 <= i < |crates| && crates[i].rlib.None? && d == MissingRlib(crates[i].name)
      {
        if d in MissingRlibErrors(init) {
          var i :| 0 <= i < |init| && init[i].rlib.None? && d == MissingRlib(init[i].name);
          assert crates[i] == init[i];
        } else {
          assert crates[|crates| - 1].rlib.None? && d == MissingRlib(crates[|crates| - 1].name);
        }
      }
      forall i | 0 <= i < |crates| && crates[i].rlib.None?
        ensures MissingRlib(crates[i].name) in MissingRlibErrors(crates)
      {
        if i < |init| {
          assert crates[i] == init[i];
        }
      }
    }
  }

  /** The native dependencies are surfaced only when there are some: a
      warning, a general note, then one note per dependency; apart from
      missing rlibs nothing is an error. */
  lemma StaticlibReported(crates: seq<UsedCrate>)
    ensures var ds := StaticlibDiagnostics(crates);
      var deps := NativeDeps(crates);
      (Warning(NativeArtifactsWarning) in ds <==> deps != [])
      && ds[|ds| - |deps|..] == NativeNotes(deps)
      && (forall d :: d in ds && d.Error? ==> d in MissingRlibErrors(crates))
  {
    var deps := NativeDeps(crates);
    var errs := MissingRlibErrors(crates);
    var mid := if deps != [] then [Warning(NativeArtifactsWarning), Note(NativeArtifactsNote)] else [];
    assert StaticlibDiagnostics(crates) == errs + mid + NativeNotes(deps);
    assert forall d :: d in errs ==> d.Error? by {
      MissingRlibErrorsExactly(crates);
    }
    DiagnosticsParts(errs, mid, NativeNotes(deps));
  }

  /** Errors, then a middle part, then notes: the errors come from the first
      part or the middle, the warnings from the middle, and the notes end
      the list. */
  lemma DiagnosticsParts(errs: seq<Diagnostic>, mid: seq<Diagnostic>, notes: seq<Diagnostic>)
    requires forall d :: d in errs ==> d.Error?
    requires forall d :: d in notes ==> d.Note?
    ensures var ds := errs + mid + notes;
      (forall w :: Warning(w) in ds <==> Warning(w) in mid)
      && ds[|ds| - |notes|..] == notes
      && (forall d :: d in ds && d.Error? ==> d in errs || d in mid)
  {
    var ds := errs + mid + notes;
    assert ds == (errs + mid) + notes;
  }

  // ---------------------------------------------------------------------
  // An existing archive, as the LTO relinker edits it

  /** `ar d`: the first member with that name is deleted. */
  function RemoveFirst(ms: seq<string>, name: string): (r: seq<string>)
    ensures |r| <= |ms|
  {
    if ms == [] then []
    else if ms[0] == name then ms[1..]
    else [ms[0]] + RemoveFirst(ms[1..], name)
  }

  /** Exactly one copy of `name` goes, if there is one. */
  lemma {:induction false} RemoveFirstCounts(ms: seq<string>, name: string)
    ensures name !in ms ==> RemoveFirst(ms, name) == ms
    ensures name in ms ==> multiset(RemoveFirst(ms, name)) == multiset(ms) - multiset{name}
  {
    if ms != [] {
      assert ms == [ms[0]] + ms[1..];
      RemoveFirstCounts(ms[1..], name);
    }
  }

  class Archive {
    var members: seq<string>

    constructor Open(members: seq<string>)
      ensures this.members == members
    {
      this.members := members;
    }

    method RemoveFile(name: string)
      modifies this
      ensures members == RemoveFirst(old(members), name)
    {
      members := RemoveFirst(members, name);
    }

    method Files() returns (r: seq<string>)
      ensures r == members
    {
      r := members;
    }
  }

  predicate HasObject(ms: seq<string>) {
    exists i :: 0 <= i < |ms| && EndsWith(ms[i], ".o")
  }

  /** Whether the relinker keeps an upstream rlib once the crate's own
      object `<name>.o` is removed: only if an object member remains. */
  function KeptAfterLto(members: seq<string>, name: string): bool {
    HasObject(RemoveFirst(members, name + ".o"))
  }

  /** The archive is kept exactly when, besides one copy of `<name>.o`, it
      holds another member whose name ends in `.o`. */
  lemma KeptAfterLtoExactly(members: seq<string>, name: string)
    ensures KeptAfterLto(members, name)
      <==> exists m :: m in multiset(members) - multiset{name + ".o"} && EndsWith(m, ".o")
  {
    var r := RemoveFirst(members, name + ".o");
    RemoveFirstCounts(members, name + ".o");
    if name + ".o" !in members {
      assert multiset(members) - multiset{name + ".o"} == multiset(members);
    }
    assert multiset(r) == multiset(members) - multiset{name + ".o"};
    HasObjectMultiset(r);
  }

  /** Whether a member list holds an object depends only on its members,
      not on their order. */
  lemma HasObjectMultiset(ms: seq<string>)
    ensures HasObject(ms) <==> exists m :: m in multiset(ms) && EndsWith(m, ".o")
  {
    if HasObject(ms) {
      var i :| 0 <= i < |ms| && EndsWith(ms[i], ".o");
      assert ms[i] in multiset(ms);
    }
    if exists m :: m in multiset(ms) && EndsWith(m, ".o") {
      var m :| m in multiset(ms) && EndsWith(m, ".o");
      assert m in ms;
      var i :| 0 <= i < |ms| && ms[i] == m;
    }
  }

  /** An rlib holding only the crate's object (and the magic members) is
      dropped; one that also holds a native object is kept. */
  lemma LtoPruningExamples()
    ensures !KeptAfterLto(["foo.o"], "foo")
    ensures !KeptAfterLto(["foo.o", MetadataFilename, "foo.bytecode.deflate"], "foo")
    ensures KeptAfterLto(["foo.o", "bar.o"], "foo")
  {
    assert RemoveFirst(["foo.o"], "foo.o") == [];
    var r := RemoveFirst(["foo.o", MetadataFilename, "foo.bytecode.deflate"], "foo.o");
    assert r == [MetadataFilename, "foo.bytecode.deflate"];
    assert !EndsWith(r[0], ".o") && !EndsWith(r[1], ".o");
    var k := RemoveFirst(["foo.o", "bar.o"], "foo.o");
    assert k == ["bar.o"];
    assert EndsWith(k[0], ".o");
  }
}
