/** The target descriptor: a flat record of everything the compiler needs to
    know about a platform, its "sane defaults" with five required fields
    left at a sentinel, loading from a JSON object, validation, and the
    resolution of a target name to a built-in descriptor or a JSON file.

    The built-in per-triple constructors are not part of this model: a
    built-in hit is reported by its normalised name. The file system is a
    map from path strings to the parsed document (`None` when the file
    exists but does not open or parse). */
module Target {
  import opened Common

  /** The value of a required field that nobody has set yet. */
  const Unset := "this field needs to be specified"

  datatype TargetSpec = TargetSpec(
    dataLayout: string,
    llvmTarget: string,
    linker: string,
    preLinkArgs: seq<string>,
    postLinkArgs: seq<string>,
    cpu: string,
    features: string,
    dynamicLinking: bool,
    executables: bool,
    disableStackChecking: bool,
    relocationModel: string,
    codeModel: string,
    disableRedzone: bool,
    targetEndian: string,
    targetWordSize: string,
    eliminateFramePointer: bool,
    functionSections: bool,
    dllPrefix: string,
    dllSuffix: string,
    exeSuffix: string,
    staticlibPrefix: string,
    staticlibSuffix: string,
    isLikeOsx: bool,
    isLikeWindows: bool,
    linkerIsGnu: bool,
    hasRpath: bool,
    arch: string)

  // ---------------------------------------------------------------------
  // Fields as first-class names, so that properties can quantify over them

  datatype Field =
    | DataLayout | LlvmTarget | Linker | PreLinkArgs | PostLinkArgs | Cpu | Features
    | DynamicLinking | Executables | DisableStackChecking | RelocationModel | CodeModel
    | DisableRedzone | TargetEndian | TargetWordSize | EliminateFramePointer
    | FunctionSections | DllPrefix | DllSuffix | ExeSuffix | StaticlibPrefix
    | StaticlibSuffix | IsLikeOsx | IsLikeWindows | LinkerIsGnu | HasRpath | Arch

  datatype FieldValue = Str(s: string) | Flag(b: bool) | Strs(ss: seq<string>)

  datatype Kind = StringKind | BoolKind | ListKind

  function Get(t: TargetSpec, f: Field): FieldValue {
    match f
    case DataLayout => Str(t.dataLayout)
    case LlvmTarget => Str(t.llvmTarget)
    case Linker => Str(t.linker)
    case PreLinkArgs => Strs(t.preLinkArgs)
    case PostLinkArgs => Strs(t.postLinkArgs)
    case Cpu => Str(t.cpu)
    case Features => Str(t.features)
    case DynamicLinking => Flag(t.dynamicLinking)
    case Executables => Flag(t.executables)
    case DisableStackChecking => Flag(t.disableStackChecking)
    case RelocationModel => Str(t.relocationModel)
    case CodeModel => Str(t.codeModel)
    case DisableRedzone => Flag(t.disableRedzone)
    case TargetEndian => Str(t.targetEndian)
    case TargetWordSize => Str(t.targetWordSize)
    case EliminateFramePointer => Flag(t.eliminateFramePointer)
    case FunctionSections => Flag(t.functionSections)
    case DllPrefix => Str(t.dllPrefix)
    case DllSuffix => Str(t.dllSuffix)
    case ExeSuffix => Str(t.exeSuffix)
    case StaticlibPrefix => Str(t.staticlibPrefix)
    case StaticlibSuffix => Str(t.staticlibSuffix)
    case IsLikeOsx => Flag(t.isLikeOsx)
    case IsLikeWindows => Flag(t.isLikeWindows)
    case LinkerIsGnu => Flag(t.linkerIsGnu)
    case HasRpath => Flag(t.hasRpath)
    case Arch => Str(t.arch)
  }

  /** The JSON key each field is read from. */
  function Key(f: Field): string {
    match f
    case DataLayout => "data-layout"
    case LlvmTarget => "llvm-target"
    case Linker => "linker"
    case PreLinkArgs => "pre-link-args"
    case PostLinkArgs => "post-link-args"
    case Cpu => "cpu"
    case Features => "features"
    case DynamicLinking => "dynamic-linking"
    case Executables => "executables"
    case DisableStackChecking => "disable-stack-checking"
    case RelocationModel => "relocation-model"
    case CodeModel => "code-model"
    case DisableRedzone => "disable-redzone"
    case TargetEndian => "target-endian"
    case TargetWordSize => "target-word-size"
    case EliminateFramePointer => "eliminate-frame-pointer"
    case FunctionSections => "function-sections"
    case DllPrefix => "dll-prefix"
    case DllSuffix => "dll-suffix"
    case ExeSuffix => "exe-suffix"
    case StaticlibPrefix => "staticlib-prefix"
    case StaticlibSuffix => "staticlib-suffix"
    case IsLikeOsx => "is-like-osx"
    case IsLikeWindows => "is-like-windows"
    case LinkerIsGnu => "linker-is-gnu"
    case HasRpath => "has-rpath"
    case Arch => "arch"
  }

  function KindOf(f: Field): Kind {
    match f
    case PreLinkArgs | PostLinkArgs => ListKind
    case DynamicLinking | Executables | DisableStackChecking | DisableRedzone
      | EliminateFramePointer | FunctionSections | IsLikeOsx | IsLikeWindows
      | LinkerIsGnu | HasRpath => BoolKind
    case _ => StringKind
  }

  /** The five fields a usable descriptor must set. */
  predicate Required(f: Field) {
    f == DataLayout || f == LlvmTarget || f == TargetEndian || f == TargetWordSize || f == Arch
  }

  /** A field's value has the type its kind says. */
  lemma GetHasKind(t: TargetSpec, f: Field)
    ensures KindOf(f) == StringKind <==> Get(t, f).Str?
    ensures KindOf(f) == BoolKind <==> Get(t, f).Flag?
    ensures KindOf(f) == ListKind <==> Get(t, f).Strs?
  {
  }

  // ---------------------------------------------------------------------
  // empty and verify

  /** `Target::empty`: the defaults every descriptor starts from. */
  function Empty(): TargetSpec {
    TargetSpec(
      dataLayout := Unset,
      llvmTarget := Unset,
      linker := "cc",
      preLinkArgs := [],
      postLinkArgs := ["-lcompiler-rt"],
      cpu := "generic",
      features := "",
      dynamicLinking := false,
      executables := false,
      disableStackChecking := true,
      relocationModel := "pic",
      codeModel := "default",
      disableRedzone := true,
      targetEndian := Unset,
      targetWordSize := Unset,
      eliminateFramePointer := true,
      functionSections := true,
      dllPrefix := "lib",
      dllSuffix := ".so",
      exeSuffix := "",
      staticlibPrefix := "lib",
      staticlibSuffix := ".a",
      isLikeOsx := false,
      isLikeWindows := false,
      linkerIsGnu := false,
      hasRpath := false,
      arch := Unset)
  }

  /** Exactly the required fields of the defaults hold the sentinel. */
  lemma EmptyRequiredUnset(f: Field)
    ensures Get(Empty(), f) == Str(Unset) <==> Required(f)
  {
  }

  /** Every required field has been overwritten. */
  predicate RequiredSet(t: TargetSpec) {
    forall f :: Required(f) ==> Get(t, f) != Str(Unset)
  }

  /** `Target::verify`: the descriptor unchanged when all five required
      fields are set, nothing otherwise. */
  function Verify(t: TargetSpec): (r: Option<TargetSpec>)
    ensures r.Some? ==> r.value == t
  {
    if t.dataLayout == Unset then None
    else if t.llvmTarget == Unset then None
    else if t.targetEndian == Unset then None
    else if t.targetWordSize == Unset then None
    else if t.arch == Unset then None
    else Some(t)
  }

  /** `verify` accepts exactly the descriptors whose required fields are
      all set. */
  lemma VerifyAccepts(t: TargetSpec)
    ensures Verify(t).Some? <==> RequiredSet(t)
  {
    if Verify(t).None? {
      if t.dataLayout == Unset {
        assert Get(t, DataLayout) == Str(Unset);
      } else if t.llvmTarget == Unset {
        assert Get(t, LlvmTarget) == Str(Unset);
      } else if t.targetEndian == Unset {
        assert Get(t, TargetEndian) == Str(Unset);
      } else if t.targetWordSize == Unset {
        assert Get(t, TargetWordSize) == Str(Unset);
      } else {
        assert Get(t, Arch) == Str(Unset);
      }
    }
  }

  /** The defaults alone never verify. */
  lemma VerifyEmpty()
    ensures Verify(Empty()) == None
  {
    assert Get(Empty(), Arch) == Str(Unset);
  }

  /** Leaving any single required field at the sentinel is rejected. */
  lemma VerifyRejectsUnset(t: TargetSpec, f: Field)
    requires Required(f) && Get(t, f) == Str(Unset)
    ensures Verify(t) == None
  {
  }

  // ---------------------------------------------------------------------
  // JSON

  datatype Json =
    | JString(str: string)
    | JNumber(num: int)
    | JBoolean(flag: bool)
    | JList(items: seq<Json>)
    | JObject(members: map<string, Json>)
    | JNull

  /** `Json::find`: the member under `key` of an object; nothing for a
      missing key or a value that is not an object. */
  function Find(obj: Json, key: string): (r: Option<Json>)
    ensures r.Some? <==> obj.JObject? && key in obj.members
  {
    if obj.JObject? && key in obj.members then Some(obj.members[key]) else None
  }

  predicate AllStrings(items: seq<Json>) {
    forall i :: 0 <= i < |items| ==> items[i].JString?
  }

  function Strings(items: seq<Json>): (r: seq<string>)
    requires AllStrings(items)
    ensures |r| == |items| && forall i :: 0 <= i < |r| ==> items[i] == JString(r[i])
  {
    if items == [] then [] else [items[0].str] + Strings(items[1..])
  }

  /** Why loading stops: a required key that is missing or not a string,
      or a list element that is not a string. */
  datatype JsonError = MissingRequired(field: Field) | NonStringElement(field: Field)

  /** A field makes loading fail: a required one without a string value,
      or a list whose elements are not all strings. */
  predicate Fails(obj: Json, f: Field) {
    var v := Find(obj, Key(f));
    if Required(f) then !(v.Some? && v.value.JString?)
    else (KindOf(f) == ListKind && v.Some? && v.value.JList? && !AllStrings(v.value.items))
  }

  /** Where a field is read in `from_json` among those that can fail:
      the five required strings, then the two argument lists. Fields that
      cannot fail rank last. */
  function ReadRank(f: Field): nat {
    match f
    case DataLayout => 0
    case LlvmTarget => 1
    case TargetEndian => 2
    case TargetWordSize => 3
    case Arch => 4
    case PreLinkArgs => 5
    case PostLinkArgs => 6
    case _ => 7
  }

  predicate Loadable(obj: Json) {
    forall f :: !Fails(obj, f)
  }

  /** The field at which `from_json` stops, checking them in reading order. */
  function FirstFailure(obj: Json): Option<Field> {
    if Fails(obj, DataLayout) then Some(DataLayout)
    else if Fails(obj, LlvmTarget) then Some(LlvmTarget)
    else if Fails(obj, TargetEndian) then Some(TargetEndian)
    else if Fails(obj, TargetWordSize) then Some(TargetWordSize)
    else if Fails(obj, Arch) then Some(Arch)
    else if Fails(obj, PreLinkArgs) then Some(PreLinkArgs)
    else if Fails(obj, PostLinkArgs) then Some(PostLinkArgs)
    else None
  }

  function ErrorFor(f: Field): JsonError {
    if Required(f) then MissingRequired(f) else NonStringElement(f)
  }

  /** The defaults overwritten by every key of the object that holds a
      value of the right type. */
  function Overlay(obj: Json): TargetSpec {
    var d := Empty();
    TargetSpec(
      dataLayout := OptString(obj, DataLayout, d.dataLayout),
      llvmTarget := OptString(obj, LlvmTarget, d.llvmTarget),
      linker := OptString(obj, Linker, d.linker),
      preLinkArgs := ListOr(obj, PreLinkArgs, d.preLinkArgs),
      postLinkArgs := ListOr(obj, PostLinkArgs, d.postLinkArgs),
      cpu := OptString(obj, Cpu, d.cpu),
      features := OptString(obj, Features, d.features),
      dynamicLinking := OptBool(obj, DynamicLinking, d.dynamicLinking),
      executables := OptBool(obj, Executables, d.executables),
      disableStackChecking := OptBool(obj, DisableStackChecking, d.disableStackChecking),
      relocationModel := OptString(obj, RelocationModel, d.relocationModel),
      codeModel := OptString(obj, CodeModel, d.codeModel),
      disableRedzone := OptBool(obj, DisableRedzone, d.disableRedzone),
      targetEndian := OptString(obj, TargetEndian, d.targetEndian),
      targetWordSize := OptString(obj, TargetWordSize, d.targetWordSize),
      eliminateFramePointer := OptBool(obj, EliminateFramePointer, d.eliminateFramePointer),
      functionSections := OptBool(obj, FunctionSections, d.functionSections),
      dllPrefix := OptString(obj, DllPrefix, d.dllPrefix),
      dllSuffix := OptString(obj, DllSuffix, d.dllSuffix),
      exeSuffix := OptString(obj, ExeSuffix, d.exeSuffix),
      staticlibPrefix := OptString(obj, StaticlibPrefix, d.staticlibPrefix),
      staticlibSuffix := OptString(obj, StaticlibSuffix, d.staticlibSuffix),
      isLikeOsx := OptBool(obj, IsLikeOsx, d.isLikeOsx),
      isLikeWindows := OptBool(obj, IsLikeWindows, d.isLikeWindows),
      linkerIsGnu := OptBool(obj, LinkerIsGnu, d.linkerIsGnu),
      hasRpath := OptBool(obj, HasRpath, d.hasRpath),
      arch := OptString(obj, Arch, d.arch))
  }

  /** Each field of the overlay is the value `Loaded` describes. */
  lemma OverlayFields(obj: Json, f: Field)
    ensures Get(Overlay(obj), f) == Loaded(obj, f)
  {
  }

  /** Only the seven fields read first can fail. */
  lemma FailsRanked(obj: Json, g: Field)
    ensures Fails(obj, g) ==>
      g == DataLayout || g == LlvmTarget || g == TargetEndian || g == TargetWordSize
      || g == Arch || g == PreLinkArgs || g == PostLinkArgs
  {
  }

  /** The rank picks out the seven fields that can fail. */
  lemma RankedFields(g: Field)
    ensures ReadRank(g) == 0 <==> g == DataLayout
    ensures ReadRank(g) == 1 <==> g == LlvmTarget
    ensures ReadRank(g) == 2 <==> g == TargetEndian
    ensures ReadRank(g) == 3 <==> g == TargetWordSize
    ensures ReadRank(g) == 4 <==> g == Arch
    ensures ReadRank(g) == 5 <==> g == PreLinkArgs
    ensures ReadRank(g) == 6 <==> g == PostLinkArgs
  {
  }

  /** Loading stops at a failing field before which nothing fails. */
  lemma FirstFailureFirst(obj: Json, f: Field)
    requires FirstFailure(obj) == Some(f)
    ensures Fails(obj, f)
    ensures forall g :: ReadRank(g) < ReadRank(f) ==> !Fails(obj, g)
  {
    RankedFields(f);
    forall g | ReadRank(g) < ReadRank(f) ensures !Fails(obj, g) {
      RankedFields(g);
    }
  }

  /** Loading stops nowhere exactly when no field fails. */
  lemma FirstFailureNone(obj: Json)
    ensures FirstFailure(obj).None? <==> Loadable(obj)
  {
    forall g {
      FailsRanked(obj, g);
    }
  }

  // Reading one key, as each statement of `from_json` does.

  /** A required string (corrected reading: the string value itself). */
  function RequiredString(obj: Json, f: Field): (r: Result<string, JsonError>)
    ensures r.Ok? <==> Find(obj, Key(f)).Some? && Find(obj, Key(f)).value.JString?
    ensures r.Ok? ==> Find(obj, Key(f)) == Some(JString(r.value))
    ensures Required(f) ==> (r.Err? <==> Fails(obj, f))
    ensures r.Ok? ==> forall current :: r.value == OptString(obj, f, current)
  {
    match Find(obj, Key(f))
    case Some(JString(s)) => Ok(s)
    case _ => Err(MissingRequired(f))
  }

  /** An optional string: the value under the field's key when that is a
      string, `current` otherwise. */
  function OptString(obj: Json, f: Field, current: string): (r: string)
    ensures Find(obj, Key(f)) == Some(JString(r))
      || (r == current && !(Find(obj, Key(f)).Some? && Find(obj, Key(f)).value.JString?))
  {
    match Find(obj, Key(f))
    case Some(JString(s)) => s
    case _ => current
  }

  /** An optional flag: the value under the field's key when that is a
      boolean, `current` otherwise. */
  function OptBool(obj: Json, f: Field, current: bool): (r: bool)
    ensures Find(obj, Key(f)) == Some(JBoolean(r))
      || (r == current && !(Find(obj, Key(f)).Some? && Find(obj, Key(f)).value.JBoolean?))
  {
    match Find(obj, Key(f))
    case Some(JBoolean(b)) => b
    case _ => current
  }

  /** An optional list: the strings of the list under the field's key when
      it is a list of strings, `current` otherwise. */
  function ListOr(obj: Json, f: Field, current: seq<string>): (r: seq<string>)
    ensures (Find(obj, Key(f)).Some? && Find(obj, Key(f)).value.JList?
             && AllStrings(Find(obj, Key(f)).value.items)
             && r == Strings(Find(obj, Key(f)).value.items))
      || (r == current && !(Find(obj, Key(f)).Some? && Find(obj, Key(f)).value.JList?
                            && AllStrings(Find(obj, Key(f)).value.items)))
  {
    match Find(obj, Key(f))
    case Some(JList(items)) => if AllStrings(items) then Strings(items) else current
    case _ => current
  }

  /** The value a field gets from an object: the value under its key when
      that has the field's type (a list must hold only strings), the
      default otherwise. */
  function Loaded(obj: Json, f: Field): (r: FieldValue)
    ensures KindOf(f) == StringKind ==> r.Str?
    ensures KindOf(f) == BoolKind ==> r.Flag?
    ensures KindOf(f) == ListKind ==> r.Strs?
  {
    match Get(Empty(), f)
    case Str(s) => Str(OptString(obj, f, s))
    case Flag(b) => Flag(OptBool(obj, f, b))
    case Strs(l) => Strs(ListOr(obj, f, l))
  }

  /** An optional list of strings: a list replaces `current` (every
      element must be a string), anything else leaves it. */
  function OptStrings(obj: Json, f: Field, current: seq<string>): (r: Result<seq<string>, JsonError>)
    ensures r.Err? <==>
      (Find(obj, Key(f)).Some? && Find(obj, Key(f)).value.JList?
       && !AllStrings(Find(obj, Key(f)).value.items))
    ensures KindOf(f) == ListKind ==> (r.Err? <==> Fails(obj, f))
    ensures r.Ok? ==> r.value == ListOr(obj, f, current)
  {
    match Find(obj, Key(f))
    case Some(JList(items)) =>
      if AllStrings(items) then Ok(Strings(items)) else Err(NonStringElement(f))
    case _ => Ok(current)
  }

  /** `Target::from_json`: start from the defaults and overwrite one field
      per key. A missing or non-string required key, or a non-string list
      element, stops loading with the first such field in reading order.
      Otherwise each field holds its key's value when that has the right
      JSON type and keeps its default otherwise. */
  method FromJson(obj: Json) returns (r: Result<TargetSpec, JsonError>)
    ensures r.Err? <==> FirstFailure(obj).Some?
    ensures r.Err? ==> r.error == ErrorFor(FirstFailure(obj).value)
    ensures r.Ok? ==> r.value == Overlay(obj)
  {
    // The descriptor under construction is held one local per field,
    // starting from the defaults.
    var base := Empty();
    var dataLayout := RequiredString(obj, DataLayout);
    if dataLayout.Err? { return Err(dataLayout.error); }
    var llvmTarget := RequiredString(obj, LlvmTarget);
    if llvmTarget.Err? { return Err(llvmTarget.error); }
    var targetEndian := RequiredString(obj, TargetEndian);
    if targetEndian.Err? { return Err(targetEndian.error); }
    var targetWordSize := RequiredString(obj, TargetWordSize);
    if targetWordSize.Err? { return Err(targetWordSize.error); }
    var arch := RequiredString(obj, Arch);
    if arch.Err? { return Err(arch.error); }

    var cpu := OptString(obj, Cpu, base.cpu);
    var linker := OptString(obj, Linker, base.linker);
    var preLinkArgs := OptStrings(obj, PreLinkArgs, base.preLinkArgs);
    if preLinkArgs.Err? { return Err(preLinkArgs.error); }
    var postLinkArgs := OptStrings(obj, PostLinkArgs, base.postLinkArgs);
    if postLinkArgs.Err? { return Err(postLinkArgs.error); }
    var features := OptString(obj, Features, base.features);
    var dynamicLinking := OptBool(obj, DynamicLinking, base.dynamicLinking);
    var executables := OptBool(obj, Executables, base.executables);
    var disableStackChecking := OptBool(obj, DisableStackChecking, base.disableStackChecking);
    var relocationModel := OptString(obj, RelocationModel, base.relocationModel);
    var codeModel := OptString(obj, CodeModel, base.codeModel);
    var disableRedzone := OptBool(obj, DisableRedzone, base.disableRedzone);
    var eliminateFramePointer := OptBool(obj, EliminateFramePointer, base.eliminateFramePointer);
    var functionSections := OptBool(obj, FunctionSections, base.functionSections);
    var dllPrefix := OptString(obj, DllPrefix, base.dllPrefix);
    var dllSuffix := OptString(obj, DllSuffix, base.dllSuffix);
    var exeSuffix := OptString(obj, ExeSuffix, base.exeSuffix);
    var staticlibPrefix := OptString(obj, StaticlibPrefix, base.staticlibPrefix);
    var staticlibSuffix := OptString(obj, StaticlibSuffix, base.staticlibSuffix);
    var isLikeOsx := OptBool(obj, IsLikeOsx, base.isLikeOsx);
    var isLikeWindows := OptBool(obj, IsLikeWindows, base.isLikeWindows);
    var linkerIsGnu := OptBool(obj, LinkerIsGnu, base.linkerIsGnu);
    var hasRpath := OptBool(obj, HasRpath, base.hasRpath);

    r := Ok(TargetSpec(
      dataLayout.value, llvmTarget.value, linker, preLinkArgs.value, postLinkArgs.value,
      cpu, features, dynamicLinking, executables, disableStackChecking,
      relocationModel, codeModel, disableRedzone, targetEndian.value, targetWordSize.value,
      eliminateFramePointer, functionSections, dllPrefix, dllSuffix, exeSuffix,
      staticlibPrefix, staticlibSuffix, isLikeOsx, isLikeWindows, linkerIsGnu, hasRpath,
      arch.value));
  }

  /** What `from_json` produces, as one value: the error of the first
      failing field, or the overlay. */
  function Parse(obj: Json): (r: Result<TargetSpec, JsonError>)
    ensures r.Err? <==> !Loadable(obj)
  {
    FirstFailureNone(obj);
    match FirstFailure(obj)
    case Some(f) => Err(ErrorFor(f))
    case None => Ok(Overlay(obj))
  }

  /** A loadable object's required fields hold the strings under their keys. */
  lemma LoadedRequired(obj: Json, f: Field)
    requires Loadable(obj) && Required(f)
    ensures Find(obj, Key(f)).Some? && Find(obj, Key(f)).value.JString?
    ensures Get(Overlay(obj), f) == Str(Find(obj, Key(f)).value.str)
  {
    assert !Fails(obj, f);
    OverlayFields(obj, f);
  }

  /** A field's loaded value: the key's value when it has the field's type,
      the default when the key is absent or holds another type. */
  lemma LoadedValue(obj: Json, f: Field)
    ensures Find(obj, Key(f)).None? ==> Loaded(obj, f) == Get(Empty(), f)
    ensures forall s ::
      (KindOf(f) == StringKind && Find(obj, Key(f)) == Some(JString(s))) ==> Loaded(obj, f) == Str(s)
    ensures forall b ::
      (KindOf(f) == BoolKind && Find(obj, Key(f)) == Some(JBoolean(b))) ==> Loaded(obj, f) == Flag(b)
    ensures forall items ::
      (KindOf(f) == ListKind && Find(obj, Key(f)) == Some(JList(items)) && AllStrings(items))
      ==> Loaded(obj, f) == Strs(Strings(items))
    ensures KindOf(f) == StringKind && !(Find(obj, Key(f)).Some? && Find(obj, Key(f)).value.JString?)
      ==> Loaded(obj, f) == Get(Empty(), f)
    ensures KindOf(f) == BoolKind && !(Find(obj, Key(f)).Some? && Find(obj, Key(f)).value.JBoolean?)
      ==> Loaded(obj, f) == Get(Empty(), f)
    ensures KindOf(f) == ListKind && !(Find(obj, Key(f)).Some? && Find(obj, Key(f)).value.JList?
                                       && AllStrings(Find(obj, Key(f)).value.items))
      ==> Loaded(obj, f) == Get(Empty(), f)
  {
    GetHasKind(Empty(), f);
  }

  /** A field's value depends on its own key only: changing any other key
      of the object leaves it alone. */
  lemma LoadedLocal(a: Json, b: Json, f: Field)
    requires Find(a, Key(f)) == Find(b, Key(f))
    ensures Loaded(a, f) == Loaded(b, f)
  {
    LoadedValue(a, f);
    LoadedValue(b, f);
  }

  /** A loadable object yields a descriptor that verifies exactly when none
      of its required keys holds the sentinel text. */
  lemma LoadedVerifies(obj: Json)
    requires Loadable(obj)
    ensures Verify(Overlay(obj)).Some? <==>
      forall f :: Required(f) ==> Find(obj, Key(f)) != Some(JString(Unset))
  {
    VerifyAccepts(Overlay(obj));
    forall f | Required(f) {
      LoadedRequired(obj, f);
    }
  }

  // ---------------------------------------------------------------------
  // The required reads as lines 145-151 write them

  /** `obj.find(key).unwrap().as_string().to_string()`: `unwrap` panics on a
      missing key (nothing here), and `to_string` renders the optional
      string that `as_string` returns, so a string `s` is stored as
      `Some(s)` and any other value as `None`. */
  function RequiredAsWritten(obj: Json, f: Field): (r: Option<string>)
    ensures r.None? <==> Find(obj, Key(f)).None?
  {
    match Find(obj, Key(f))
    case None => None
    case Some(JString(s)) => Some("Some(" + s + ")")
    case Some(_) => Some("None")
  }

  /** As written, a string value is never stored as itself, while the
      corrected reading stores exactly that string. */
  lemma RequiredAsWrittenWraps(obj: Json, f: Field, s: string)
    requires Find(obj, Key(f)) == Some(JString(s))
    ensures RequiredAsWritten(obj, f).value != s
    ensures RequiredString(obj, f) == Ok(s)
  {
    assert |RequiredAsWritten(obj, f).value| == |s| + 6;
  }

  /** As written, a required key holding a number makes the field the text
      `None`, which is not the sentinel, so `verify` lets it through; the
      corrected reading rejects the object. */
  lemma RequiredAsWrittenAcceptsNumber(obj: Json, f: Field, n: int)
    requires Required(f) && Find(obj, Key(f)) == Some(JNumber(n))
    ensures RequiredAsWritten(obj, f) == Some("None") && "None" != Unset
    ensures Fails(obj, f) && !Loadable(obj)
  {
    assert |Unset| == 32;
    assert Fails(obj, f);
  }

  // ---------------------------------------------------------------------
  // search

  /** `target.replace("-", "_")`. */
  function Normalise(s: string): (r: string)
    ensures |r| == |s|
    ensures forall i :: 0 <= i < |s| ==> r[i] == (if s[i] == '-' then '_' else s[i])
  {
    seq(|s|, i requires 0 <= i < |s| => if s[i] == '-' then '_' else s[i])
  }

  /** No dash survives normalisation, so normalising twice changes nothing. */
  lemma NormaliseIdempotent(s: string)
    ensures forall i :: 0 <= i < |Normalise(s)| ==> Normalise(s)[i] != '-'
    ensures Normalise(Normalise(s)) == Normalise(s)
  {
  }

  /** A name without dashes is its own normal form. */
  lemma NormaliseFixed(s: string)
    requires forall i :: 0 <= i < |s| ==> s[i] != '-'
    ensures Normalise(s) == s
  {
  }

  /** The targets built into the compiler, spelled as their modules. */
  const BuiltinTargets: seq<string> := [
    "x86_64_unknown_linux_gnu", "i686_unknown_linux_gnu", "mips_unknown_linux_gnu",
    "mipsel_unknown_linux_gnu", "arm_linux_androideabi", "arm_unknown_linux_gnueabi",
    "arm_unknown_linux_gnueabihf", "x86_64_unknown_freebsd", "i686_unknown_freebsd",
    "x86_64_unknown_dragonfly", "i686_unknown_dragonfly", "x86_64_apple_darwin",
    "i686_apple_darwin", "arm_apple_darwin", "x86_64_pc_windows_gnu", "i686_pc_windows_gnu"]

  /** The built-in target a name denotes, compared after normalisation. */
  function LookupBuiltin(target: string): (r: Option<string>)
    ensures r.Some? <==> Normalise(target) in BuiltinTargets
    ensures r.Some? ==> r.value == Normalise(target)
  {
    var name := Normalise(target);
    if name in BuiltinTargets then Some(name) else None
  }

  /** The GNU/Linux triple as users write it selects the built-in module. */
  lemma LinuxTripleIsBuiltin()
    ensures LookupBuiltin("x86_64-unknown-linux-gnu") == Some("x86_64_unknown_linux_gnu")
  {
    assert Normalise("x86_64-unknown-linux-gnu") == "x86_64_unknown_linux_gnu";
    assert BuiltinTargets[0] == "x86_64_unknown_linux_gnu";
  }

  datatype Found = Builtin(name: string) | FromFile(spec: TargetSpec)

  /** What a target file yields: nothing when it does not open or parse,
      the load error if `from_json` stops, otherwise the verified
      descriptor or nothing. */
  function LoadFile(doc: Option<Json>): (r: Result<Option<Found>, JsonError>)
    ensures r.Ok? && r.value.Some? ==> r.value.value.FromFile? && RequiredSet(r.value.value.spec)
  {
    match doc
    case None => Ok(None)
    case Some(obj) =>
      match Parse(obj)
      case Err(e) => Err(e)
      case Ok(t) =>
        VerifyAccepts(t);
        if Verify(t).Some? then Ok(Some(FromFile(t))) else Ok(None)
  }

  /** `dir.join(name)` for the strings the search builds: an absolute name
      stands alone, otherwise it goes under the directory. */
  function JoinPath(dir: string, name: string): string {
    if StartsWith(name, "/") || dir == "" then name
    else if EndsWith(dir, "/") then dir + name
    else dir + "/" + name
  }

  /** The first directory holding `name` decides the outcome. */
  function SearchDirs(dirs: seq<string>, name: string, files: map<string, Option<Json>>)
    : (r: Result<Option<Found>, JsonError>)
    ensures r.Ok? && r.value.Some? ==> r.value.value.FromFile? && RequiredSet(r.value.value.spec)
  {
    if dirs == [] then Ok(None)
    else
      var p := JoinPath(dirs[0], name);
      if p in files then LoadFile(files[p]) else SearchDirs(dirs[1..], name, files)
  }

  /** The directories searched: those of the search path, then the
      system-wide one. */
  function SearchPath(targetPath: seq<string>): seq<string> {
    targetPath + ["/etc/rustc"]
  }

  /** `Target::search`, as one value: a built-in, else the bare name as a
      file, else `<target>.json` in the first directory that has it. */
  function SearchSpec(target: string, targetPath: seq<string>, files: map<string, Option<Json>>)
    : Result<Option<Found>, JsonError>
  {
    match LookupBuiltin(target)
    case Some(name) => Ok(Some(Builtin(name)))
    case None =>
      if target in files then LoadFile(files[target])
      else SearchDirs(SearchPath(targetPath), target + ".json", files)
  }

  /** Every descriptor the search returns from a file has all five required
      fields set. */
  lemma SearchVerified(target: string, targetPath: seq<string>, files: map<string, Option<Json>>)
    ensures var r := SearchSpec(target, targetPath, files);
      r.Ok? && r.value.Some? && r.value.value.FromFile? ==> RequiredSet(r.value.value.spec)
  {
  }

  /** A built-in name is answered without looking at any file. */
  lemma SearchLinuxTriple(targetPath: seq<string>, files: map<string, Option<Json>>)
    ensures SearchSpec("x86_64-unknown-linux-gnu", targetPath, files)
      == Ok(Some(Builtin("x86_64_unknown_linux_gnu")))
  {
    LinuxTripleIsBuiltin();
  }

  /** Reads one target file. */
  method Load(doc: Option<Json>) returns (r: Result<Option<Found>, JsonError>)
    ensures r == LoadFile(doc)
  {
    if doc.None? {
      return Ok(None);
    }
    var t := FromJson(doc.value);
    if t.Err? {
      return Err(t.error);
    }
    var v := Verify(t.value);
    r := if v.Some? then Ok(Some(FromFile(v.value))) else Ok(None);
  }

  /** `Target::search`: the built-in table, then the bare name, then each
      directory of the search path in order. The environment variable and
      the file system are parameters: `targetPath` is the split search
      path and `files` maps each existing file to its parsed document. */
  method Search(target: string, targetPath: seq<string>, files: map<string, Option<Json>>)
    returns (r: Result<Option<Found>, JsonError>)
    ensures r == SearchSpec(target, targetPath, files)
  {
    var builtin := LookupBuiltin(target);
    if builtin.Some? {
      return Ok(Some(Builtin(builtin.value)));
    }
    if target in files {
      r := Load(files[target]);
      return;
    }
    var name := target + ".json";
    var paths := targetPath + ["/etc/rustc"];
    var i := 0;
    while i < |paths|
      invariant 0 <= i <= |paths|
      invariant SearchDirs(paths, name, files) == SearchDirs(paths[i..], name, files)
    {
      var p := JoinPath(paths[i], name);
      if p in files {
        r := Load(files[p]);
        return;
      }
      assert paths[i..][1..] == paths[i + 1..];
      i := i + 1;
    }
    r := Ok(None);
  }
}
