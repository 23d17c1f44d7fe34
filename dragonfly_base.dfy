/** The settings shared by the DragonFly BSD targets. */
module DragonflyBase {
  import opened Common
  import opened Target

  /** The fields this base sets; all others keep the defaults. */
  predicate SetHere(f: Field) {
    f == FunctionSections || f == Linker || f == DynamicLinking || f == Executables
    || f == IsLikeOsx || f == DisableStackChecking || f == HasRpath || f == PreLinkArgs
  }

  /** `dragonfly_base::target()`: a struct update over the defaults. */
  function Base(): TargetSpec {
    Empty().(
      functionSections := false,
      linker := "cc",
      dynamicLinking := true,
      executables := true,
      isLikeOsx := true,
      disableStackChecking := false,
      hasRpath := true,
      preLinkArgs := [
        "-L/usr/local/lib",
        "-L/usr/local/lib/gcc47",
        "-L/usr/local/lib/gcc44"])
  }

  /** The base claims an OS X-like toolchain and does not split functions
      into sections. */
  lemma Flags()
    ensures Base().isLikeOsx && !Base().functionSections
    ensures Base().dynamicLinking && Base().executables && Base().hasRpath
    ensures !Base().disableStackChecking
  {
  }

  /** Exactly three pre-link arguments, each a library search directory. */
  lemma PreLinkOrder()
    ensures |Base().preLinkArgs| == 3
    ensures forall i :: 0 <= i < 3 ==> StartsWith(Base().preLinkArgs[i], "-L")
    ensures Base().preLinkArgs == ["-L/usr/local/lib", "-L/usr/local/lib/gcc47", "-L/usr/local/lib/gcc44"]
  {
  }

  /** Every field the base does not set is the default: no GNU linker, no
      executable suffix, and the required fields still at the sentinel. */
  lemma Inherited(f: Field)
    ensures !SetHere(f) ==> Get(Base(), f) == Get(Empty(), f)
    ensures !Base().linkerIsGnu && Base().exeSuffix == ""
    ensures Verify(Base()) == None
  {
    VerifyRejectsUnset(Base(), DataLayout);
  }
}
