/** The settings shared by the GNU/Linux targets. */
module LinuxBase {
  import opened Common
  import opened Target

  /** The fields this base sets; all others keep the defaults. */
  predicate SetHere(f: Field) {
    f == Linker || f == DynamicLinking || f == Executables || f == DisableStackChecking
    || f == LinkerIsGnu || f == HasRpath || f == PreLinkArgs
  }

  /** `linux_base::target()`: a struct update over the defaults. */
  function Base(): TargetSpec {
    Empty().(
      linker := "cc",
      dynamicLinking := true,
      executables := true,
      disableStackChecking := false,
      linkerIsGnu := true,
      hasRpath := true,
      preLinkArgs := [
        "-Wl,--whole-archive",
        "-lmorestack",
        "-Wl,--no-whole-archive",
        "-Wl,--as-needed",
        "-fPIC"])
  }

  /** The system C compiler drives a GNU linker that understands rpaths;
      dynamic libraries and executables can both be produced. */
  lemma Capabilities()
    ensures Base().linker == "cc" && Base().dynamicLinking && Base().executables
    ensures Base().linkerIsGnu && Base().hasRpath && !Base().disableStackChecking
  {
  }

  /** Exactly five pre-link arguments, in this order. */
  lemma PreLinkOrder()
    ensures Base().preLinkArgs ==
      ["-Wl,--whole-archive", "-lmorestack", "-Wl,--no-whole-archive", "-Wl,--as-needed", "-fPIC"]
  {
  }

  /** Every field the base does not set is the default: Unix library
      naming, neither OS X nor Windows, and the required fields still at the sentinel. */
  lemma Inherited(f: Field)
    ensures !SetHere(f) ==> Get(Base(), f) == Get(Empty(), f)
    ensures Base().dllPrefix == "lib" && Base().dllSuffix == ".so" && !Base().isLikeOsx && !Base().isLikeWindows
    ensures Verify(Base()) == None
  {
    VerifyRejectsUnset(Base(), DataLayout);
  }
}
