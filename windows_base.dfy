/** The settings shared by the Windows (MinGW) targets. */
module WindowsBase {
  import opened Common
  import opened Target

  /** The fields this base sets; all others keep the defaults. */
  predicate SetHere(f: Field) {
    f == FunctionSections || f == Linker || f == DynamicLinking || f == Executables
    || f == DllPrefix || f == DllSuffix || f == ExeSuffix || f == StaticlibPrefix
    || f == StaticlibSuffix || f == DisableStackChecking || f == IsLikeWindows
    || f == PreLinkArgs
  }

  /** `windows_base::target()`: a struct update over the defaults. */
  function Base(): TargetSpec {
    Empty().(
      functionSections := false,
      linker := "gcc",
      dynamicLinking := true,
      executables := true,
      dllPrefix := "",
      dllSuffix := ".dll",
      exeSuffix := ".exe",
      staticlibPrefix := "",
      staticlibSuffix := ".lib",
      disableStackChecking := false,
      isLikeWindows := true,
      preLinkArgs := [
        "-Wl,--whole-archive",
        "-lmorestack",
        "-Wl,--no-whole-archive",
        "-nodefaultlibs",
        "-shared-libgcc",
        "-Wl,--enable-long-section-names"])
  }

  /** Dynamic libraries are bare names with `.dll`, executables get `.exe`,
      and static libraries are bare names with `.lib`. */
  lemma NamingConvention()
    ensures Base().dllPrefix == "" && Base().dllSuffix == ".dll" && Base().exeSuffix == ".exe"
    ensures Base().staticlibPrefix == "" && Base().staticlibSuffix == ".lib"
  {
  }

  /** Both dynamic libraries and executables can be produced. */
  lemma Capabilities()
    ensures Base().dynamicLinking && Base().executables && Base().isLikeWindows
    ensures !Base().functionSections && !Base().disableStackChecking
  {
  }

  /** The pre-link arguments start by forcing the whole of libmorestack in
      and end by keeping long section names. */
  lemma PreLinkOrder()
    ensures |Base().preLinkArgs| == 6
    ensures Base().preLinkArgs[..3] == ["-Wl,--whole-archive", "-lmorestack", "-Wl,--no-whole-archive"]
    ensures Base().preLinkArgs[|Base().preLinkArgs| - 1] == "-Wl,--enable-long-section-names"
  {
  }

  /** Every field the base does not set is the default, so the required
      fields still hold the sentinel and the base alone does not verify. */
  lemma Inherited(f: Field)
    ensures !SetHere(f) ==> Get(Base(), f) == Get(Empty(), f)
    ensures Verify(Base()) == None
  {
    VerifyRejectsUnset(Base(), DataLayout);
  }
}
