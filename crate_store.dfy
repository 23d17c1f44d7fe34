/** What the linker driver reads from the crate store about the crates it
    links: the native libraries a crate asks for, how an upstream crate is
    to be linked, and where an upstream crate's files are. */
module CrateStore {
  import opened Common
  import opened Paths

  /** How a `#[link]` native library is to be linked. */
  datatype NativeKind = NativeStatic | NativeFramework | NativeUnknown

  datatype NativeLib = NativeLib(kind: NativeKind, name: string)

  /** How an upstream crate is linked into the output being produced. */
  datatype Linkage = RequireDynamic | RequireStatic

  /** An upstream crate: its number (an index into the per-output format
      table, counted from 1), its name, the paths of its rlib and dylib
      if they were found, the native libraries it declared, and the member
      names of its rlib archive. */
  datatype UsedCrate = UsedCrate(cnum: nat, name: string, rlib: Option<Path>, dylib: Option<Path>,
                                 nativeLibs: seq<NativeLib>, rlibMembers: seq<string>)
}
