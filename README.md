# rustc link driver and target descriptors, in Dafny

This project models the back end of an early `rustc`. It covers two parts of that compiler.

The first part is the link driver, `src/librustc/back/link.rs`. It covers:
- how symbol names are sanitized and mangled;
- the shape of the symbol hash;
- which artifacts a compilation may produce and what they are called;
- the member protocol of rlib and static-library archives;
- the LTO pruning of upstream rlibs;
- the exact, ordered argument list handed to the system linker.

The second part is the target descriptor, `src/librustc_back/target/`. It covers:
- the flat `Target` record and its defaults;
- loading a descriptor from a JSON object;
- validation;
- resolving a target name, either to a built-in descriptor or to a JSON file;
- the Windows, Linux and DragonFly base descriptors.

Modules:

- `Common`: `Option`/`Result`, prefix and suffix tests, and decimal formatting.
- `Paths`: the POSIX path operations that `link.rs` uses: `join`, `with_filename`, `with_extension`, `filestem` and `dirname`.
- `SymbolNames`:
  - `sanitize`, `mangle`, `exported_name` and `mangle_exported_name`;
  - a demangler that serves as the inverse of `mangle`;
  - the symbol-hash shape;
  - the per-crate memo of type hashes.
  - The `sanitize` and `mangle` methods push onto a growing string, as the source does. Each is proved equal to a specification function.
- `Target`:
  - the descriptor record;
  - its fields as first-class names;
  - `empty`, `verify`, the `from_json` overlay, the dash-to-underscore normalisation of `search`, and the search itself.
  - `from_json` is a method that reads each key into a local of its own, with the default as the fallback, and builds the record from those locals at the end. It stops at the first key that fails.
- `WindowsBase`, `LinuxBase`, `DragonflyBase`: the three base descriptors. Each is a record update over the defaults.
- `LinkOutputs`: `invalid_output_for_target`, `default_output_for_target`, `filename_for_input` and the output loop of `link_binary`.
- `CrateStore`: what the driver reads from the crate store about upstream crates and native libraries.
- `LinkArchive`: `link_rlib` and `link_staticlib`.
  - An `ArchiveBuilder` object records the steps taken on it: add a file, add a native library, add an rlib, update the symbol table, write, reopen. The members are read off that record.
  - The LTO relinker's `Archive` is a list of member names with remove and list operations.
- `LinkCommand`: `link_natively`, `link_args` and the `add_*` helpers.
  - The command is an object whose argument list only grows.
  - Every method that appends is proved to append exactly what a specification function computes.
  - The properties are lemmas about those functions.

Abstractions:
- The SHA-256 digest is a function parameter.
- The encoded type is a string.
- The file system of `Target::search` is a map from path to parsed document.
- `RUST_TARGET_PATH` is a list of directories.
- `char::escape_unicode` is written out in `SymbolNames.EscapeUnicode` as the library routine behaves: `\x` and two hex digits up to 0xff, `\u` and four up to 0xffff, `\U` and eight beyond, in lower case. That routine is not part of the driver.
- The POSIX `Path` operations in `Paths` copy the rules of the old standard library's `Path` (`set_extension` adds its own dot, `dirname` of a bare name is `.`). The `link.rs:922-924` finding depends on those rules.
- The sysroot library path, the `RUST_PATH` directories and the rpath flags are fields of the session.

Where the code and a prose description of the driver differ, the model follows the code:
- The linker's command line starts with the target's pre-link arguments. Then come `-L <sysroot lib>`, `-o <out> <obj>` and the target-dependent flags, the upstream crates, the local native libraries and the upstream native libraries. After them come the output-kind flags, the rpath flags and the user's link arguments. The last part is the target's post-link arguments (`link.rs:1191-1194`, `1256-1393`).
- Upstream native libraries are collected from every used crate, not only the statically linked ones (`link.rs:1601`).

## Model

| member | source | states |
|---|---|---|
| SymbolNames.EscapeUnicode | src/librustc/back/link.rs:714-719 | a Unicode escape is a backslash followed by letters and hex digits only, so dropping the backslash leaves a legal symbol string |
| SymbolNames.Escape | src/librustc/back/link.rs:692-719 | what one character contributes is non-empty and in `[A-Za-z0-9_.$]`; a legal character stands for itself; the contribution starts with `_` or a letter exactly when the character is one |
| SymbolNames.Escaped | src/librustc/back/link.rs:690-721 | the loop's result is in the symbol alphabet and empty exactly for the empty input |
| SymbolNames.Sanitized | src/librustc/back/link.rs:689-731 | every character of the result is in `[A-Za-z0-9_.$]`; the result is empty exactly when the input is; a non-empty result starts with `_` or a letter |
| SymbolNames.Sanitize | src/librustc/back/link.rs:689-731 | the character loop with its final underscore step returns `Sanitized(s)` |
| SymbolNames.EscapedAppend | src/librustc/back/link.rs:691-721 | escaping is character by character: the escape of `a + b` is the escape of `a` then that of `b` |
| SymbolNames.EscapedLegal | src/librustc/back/link.rs:708-712 | a string already in the alphabet escapes to itself |
| SymbolNames.SanitizedPrefix | src/librustc/back/link.rs:723-730 | `_` is prefixed exactly when the input is non-empty and its first character is neither `_` nor a letter |
| SymbolNames.SanitizedLegal | src/librustc/back/link.rs:708-730 | a legal input is its own sanitization, or gains only the leading `_` when it does not start like an identifier |
| SymbolNames.SanitizedSingle | src/librustc/back/link.rs:692-730 | one character sanitizes to its table escape, `.`, itself or `$`+escape, `_`-prefixed unless it is `_` or a letter |
| SymbolNames.SanitizedDash | src/librustc/back/link.rs:706 | `a-b` becomes `a.b` |
| SymbolNames.SanitizedPathSeparator | src/librustc/back/link.rs:706 | `x::y` becomes `x..y` |
| SymbolNames.EscapeSpace | src/librustc/back/link.rs:714-719 | a space escapes to `$x20`, its code point in two hex digits |
| SymbolNames.SanitizedSpace | src/librustc/back/link.rs:714-719 | a space becomes `_$x20` |
| SymbolNames.SanitizeCollides | src/librustc/back/link.rs:696-701 | `*` and `)` both sanitize to `_$RP$`, so sanitization is not injective |
| SymbolNames.Push | src/librustc/back/link.rs:751-754 | appends the decimal length of the sanitized component, then the sanitized component |
| SymbolNames.Mangle | src/librustc/back/link.rs:733-768 | returns `_ZN`, one length-prefixed sanitized pair per component, the hash pair if present, then `E` |
| SymbolNames.ExportedName | src/librustc/back/link.rs:770-772 | the mangled name with the hash present |
| SymbolNames.MangledShape | src/librustc/back/link.rs:749-767 | a mangled name starts with `_ZN` and ends with `E`; without a hash exactly the path's pairs lie in between, with one the hash pair follows them |
| SymbolNames.DemangleMangled | src/librustc/back/link.rs:749-767 | round trip: a mangled name of non-empty components parses back to the sanitized components in order, the hash last when given |
| SymbolNames.ToHex | src/librustc/back/link.rs:645 | the hex rendering has two lower-case hex digits per byte |
| SymbolNames.FromHexToHex | src/librustc/back/link.rs:645 | the hex rendering is lossless: reading it back gives the bytes |
| SymbolNames.TruncatedHashResult | src/librustc/back/link.rs:642-646 | 16 lower-case hex digits, two per digest byte kept |
| SymbolNames.SymbolHash | src/librustc/back/link.rs:650-670 | a symbol hash is `h` followed by 16 hex digits |
| SymbolNames.SymbolHashDetermined | src/librustc/back/link.rs:650-670 | two symbol hashes agree exactly when the digests of the two hash inputs agree on their first 8 bytes |
| SymbolNames.CrateContext.GetSymbolHash | src/librustc/back/link.rs:673-683 | returns the type's symbol hash, memoized or freshly computed, and afterwards the memo maps the type to it, every memo entry remaining the hash of its type |
| SymbolNames.ExtraChar | src/librustc/back/link.rs:782-785 | each digit of the base-62 alphabet is a legal symbol character |
| SymbolNames.ExtraChars | src/librustc/back/link.rs:782-785 | the alphabet has 62 characters: `a-z`, `A-Z`, `0-9` in that order |
| SymbolNames.Disambiguator | src/librustc/back/link.rs:786-794 | exactly three legal symbol characters |
| SymbolNames.DisambiguatorDigits | src/librustc/back/link.rs:786-794 | the three characters are the alphabet's digits `id % 62`, `(id / 62) % 62`, `(id / 3844) % 62` |
| SymbolNames.DisambiguatorInjective | src/librustc/back/link.rs:786-794 | two ids get the same three characters exactly when they agree modulo 62^3 |
| SymbolNames.MangleExportedName | src/librustc/back/link.rs:774-797 | the exported name mangled with the type's symbol hash followed by the three id characters; the memo gains that hash |
| SymbolNames.SanitizedHashSuffix | src/librustc/back/link.rs:776-796 | a symbol hash with its three id characters passes through `sanitize` unchanged |
| SymbolNames.ExportedNamesDisambiguated | src/librustc/back/link.rs:778-796 | identical paths with the same type hash get different exported names when their ids differ modulo 62^3 |
| Target.EmptyRequiredUnset | src/librustc_back/target/mod.rs:107-137 | in the defaults, exactly the five required fields hold the sentinel `this field needs to be specified` |
| Target.Verify | src/librustc_back/target/mod.rs:202-216 | an accepted descriptor is returned unchanged |
| Target.VerifyAccepts | src/librustc_back/target/mod.rs:202-216 | `verify` accepts exactly the descriptors none of whose five required fields holds the sentinel |
| Target.VerifyEmpty | src/librustc_back/target/mod.rs:202-216 | `verify(empty())` is nothing |
| Target.VerifyRejectsUnset | src/librustc_back/target/mod.rs:202-216 | any single required field left at the sentinel makes `verify` reject |
| Target.Find | src/librustc_back/target/mod.rs:145-196 | a key is found exactly when the JSON value is an object holding it |
| Target.Strings | src/librustc_back/target/mod.rs:155-161 | a list of JSON strings gives the strings, element by element |
| Target.RequiredString | src/librustc_back/target/mod.rs:145-151 | a required key yields its string exactly when it holds a string, and fails otherwise |
| Target.OptString | src/librustc_back/target/mod.rs:153-196 | an optional string key overwrites the field only when it holds a string |
| Target.OptBool | src/librustc_back/target/mod.rs:153-196 | an optional boolean key overwrites the field only when it holds a boolean |
| Target.ListOr | src/librustc_back/target/mod.rs:155-161 | an argument-list key overwrites the field only when it holds a list of strings |
| Target.OptStrings | src/librustc_back/target/mod.rs:155-161 | a list with a non-string element fails loading (the `unwrap` on each element); otherwise the list value or the current one |
| Target.Loaded | src/librustc_back/target/mod.rs:153-196 | the value a field gets from an object has the field's type |
| Target.OverlayFields | src/librustc_back/target/mod.rs:143-196 | every field of the overlaid record is the value `Loaded` describes for it |
| Target.FirstFailureFirst | src/librustc_back/target/mod.rs:145-161 | loading stops at a failing field before which, in reading order, nothing fails |
| Target.FirstFailureNone | src/librustc_back/target/mod.rs:145-161 | loading runs to the end exactly when no field fails |
| Target.FromJson | src/librustc_back/target/mod.rs:140-200 | fails exactly when some field fails, with that of the first in reading order; otherwise returns the defaults overlaid with every correctly typed key; this is the corrected reading of the required fields, see "## Findings" |
| Target.Parse | src/librustc_back/target/mod.rs:140-200 | loading fails exactly when the object is not loadable |
| Target.LoadedRequired | src/librustc_back/target/mod.rs:145-151 | a loaded descriptor's required fields are the strings under their keys |
| Target.LoadedValue | src/librustc_back/target/mod.rs:153-196 | a key of the field's type gives the field its value; an absent or mistyped key leaves the default |
| Target.LoadedLocal | src/librustc_back/target/mod.rs:153-196 | a field depends only on its own key: no other key changes it |
| Target.LoadedVerifies | src/librustc_back/target/mod.rs:140-216 | a loaded descriptor verifies exactly when no required key holds the sentinel text |
| Target.RequiredAsWritten | src/librustc_back/target/mod.rs:145-151 | as written, a present required key is stored as the rendering of an optional string |
| Target.RequiredAsWrittenWraps | src/librustc_back/target/mod.rs:145-151 | as written, a string value is never stored as itself; the corrected reading stores it |
| Target.RequiredAsWrittenAcceptsNumber | src/librustc_back/target/mod.rs:145-151 | as written, a number under a required key is stored as `None`, which is not the sentinel; the corrected reading rejects the object |
| Target.Normalise | src/librustc_back/target/mod.rs:231 | the name with every `-` replaced by `_`, character for character |
| Target.NormaliseIdempotent | src/librustc_back/target/mod.rs:231 | no dash survives, so normalising twice changes nothing |
| Target.NormaliseFixed | src/librustc_back/target/mod.rs:231 | a name without dashes is its own normal form |
| Target.LookupBuiltin | src/librustc_back/target/mod.rs:228-264 | a name selects a built-in exactly when its normal form is in the table, and selects that one |
| Target.LinuxTripleIsBuiltin | src/librustc_back/target/mod.rs:228-264 | `x86_64-unknown-linux-gnu` selects `x86_64_unknown_linux_gnu` |
| Target.LoadFile | src/librustc_back/target/mod.rs:269-273 | a descriptor read from a file has all five required fields set |
| Target.SearchDirs | src/librustc_back/target/mod.rs:284-291 | a descriptor found in the search directories has all five required fields set |
| Target.Load | src/librustc_back/target/mod.rs:269-273 | reads one target file, as `LoadFile` describes |
| Target.Search | src/librustc_back/target/mod.rs:221-293 | the built-in table, then the bare name as a file, then `<name>.json` in each search directory and `/etc/rustc` in order |
| Target.SearchVerified | src/librustc_back/target/mod.rs:267-291 | every descriptor the search returns from a file has passed `verify` |
| Target.SearchLinuxTriple | src/librustc_back/target/mod.rs:228-264 | the GNU/Linux triple is answered by the built-in table, whatever the file system holds |
| WindowsBase.NamingConvention | src/librustc_back/target/windows_base.rs:19-23 | dylib prefix empty, suffix `.dll`, executable suffix `.exe`, static library prefix empty, suffix `.lib` |
| WindowsBase.Capabilities | src/librustc_back/target/windows_base.rs:15-25 | dynamic linking, executables and Windows-likeness are on; function sections and disabled stack checking are off |
| WindowsBase.PreLinkOrder | src/librustc_back/target/windows_base.rs:26-57 | six pre-link arguments that begin with the whole-archive libmorestack triple and end with long section names |
| WindowsBase.Inherited | src/librustc_back/target/windows_base.rs:13-62 | every field not set is the default, so the base alone does not verify |
| LinuxBase.Capabilities | src/librustc_back/target/linux_base.rs:15-20 | linker `cc`, dynamic linking, executables, a GNU linker and rpath support; stack checking enabled |
| LinuxBase.PreLinkOrder | src/librustc_back/target/linux_base.rs:21-27 | exactly the five pre-link arguments, in order |
| LinuxBase.Inherited | src/librustc_back/target/linux_base.rs:13-30 | every field not set is the default: `lib`/`.so` naming, neither OS X nor Windows, and the base alone does not verify |
| DragonflyBase.Flags | src/librustc_back/target/dragonfly_base.rs:15-21 | OS X-like, no function sections, dynamic linking, executables and rpath support, stack checking enabled |
| DragonflyBase.PreLinkOrder | src/librustc_back/target/dragonfly_base.rs:22-26 | exactly three pre-link arguments, all `-L` directories, in order |
| DragonflyBase.Inherited | src/librustc_back/target/dragonfly_base.rs:13-30 | every field not set is the default: no GNU linker, no executable suffix, and the base alone does not verify |
| LinkOutputs.InvalidOutputExactly | src/librustc/back/link.rs:886-893 | an output is rejected exactly when it is a dylib without dynamic linking or an executable without executables |
| LinkOutputs.DefaultOutputForTarget | src/librustc/back/link.rs:877-883 | the default output is an executable or a static library |
| LinkOutputs.DefaultOutputValid | src/librustc/back/link.rs:877-893 | the default output is never rejected, and is an executable exactly when the target runs executables |
| LinkOutputs.BasesAcceptEveryOutput | src/librustc/back/link.rs:886-893 | none of the three base descriptors rejects any kind of output |
| LinkOutputs.ExeExtension | src/librustc/back/link.rs:922-924 | the executable extension is the suffix without its leading dot; this is the corrected reading, see "## Findings" |
| LinkOutputs.FilenameForInput | src/librustc/back/link.rs:902-926 | the artifact stays in the output's directory |
| LinkOutputs.FilenameForInputAsWritten | src/librustc/back/link.rs:902-926 | as written, it agrees with the corrected naming except for executables |
| LinkOutputs.LibraryNames | src/librustc/back/link.rs:906-921 | `lib{N}{X}.rlib`, `lib{N}{X}.a`, and dylib prefix + `{N}{X}` + dylib suffix |
| LinkOutputs.RlibNameRoundTrip | src/librustc/back/link.rs:1519-1520 | dropping three characters in front and five behind an rlib's name gives back `{N}{X}` |
| LinkOutputs.FooNames | src/librustc/back/link.rs:906-921 | crate `foo` gives `libfoo.rlib`, `libfoo.a`, `foo.dll` on Windows and `libfoo.so` on Linux |
| LinkOutputs.ExecutableNames | src/librustc/back/link.rs:922-924 | an executable `foo` is `foo.exe` with the Windows base and stays `foo` with the Linux base |
| LinkOutputs.DoubleDotExecutable | src/librustc/back/link.rs:922-924 | as written, the Windows executable `foo` is named `foo..exe` |
| LinkOutputs.ExecutableSuffix | src/librustc/back/link.rs:922-924 | with a dotted suffix, the executable's name is its stem followed by exactly that suffix |
| LinkOutputs.OutputFilename | src/librustc/back/link.rs:933-940 | an explicit single output file wins; otherwise the name derived from the executable path |
| LinkOutputs.LinkBinary | src/librustc/back/link.rs:840-853 | fails, at the first rejected kind, exactly when some requested kind is rejected; otherwise one path per requested kind, in order |
| LinkArchive.ArchiveBuilder.Create | src/librustc/back/link.rs:999-1007 | a new archive for the destination, with nothing added |
| LinkArchive.ArchiveBuilder.AddFile | src/librustc/back/link.rs:1008 | records one added file |
| LinkArchive.ArchiveBuilder.AddNativeLibrary | src/librustc/back/link.rs:1013 | records one added native library |
| LinkArchive.ArchiveBuilder.AddRlib | src/librustc/back/link.rs:1153 | records one merged upstream rlib with its LTO flag |
| LinkArchive.ArchiveBuilder.UpdateSymbols | src/librustc/back/link.rs:1021 | records one symbol-table update |
| LinkArchive.ArchiveBuilder.Build | src/librustc/back/link.rs:1160 | records one write of the archive |
| LinkArchive.ArchiveBuilder.BuildAndExtend | src/librustc/back/link.rs:1027 | records a write followed by a reopen |
| LinkArchive.MetadataPath | src/librustc/back/link.rs:1058-1059 | the metadata member is named `rust.metadata.bin` |
| LinkArchive.BytecodePath | src/librustc/back/link.rs:1080-1081 | the compressed bitcode sits beside the object file |
| LinkArchive.BytecodeNameLong | src/librustc/back/link.rs:1076-1081 | the bitcode member's name is longer than 16 bytes |
| LinkArchive.NativeStepsOnly | src/librustc/back/link.rs:1010-1017 | every member added by the native-library loop is a static library of the crate |
| LinkArchive.NativeStepsAll | src/librustc/back/link.rs:1010-1017 | every static native library of the crate is added |
| LinkArchive.NativeStepsMembers | src/librustc/back/link.rs:1010-1017 | exactly the static native libraries are added to an rlib |
| LinkArchive.LinkRlib | src/librustc/back/link.rs:994-1116 | the steps taken are the object, the static native libraries, a symbol update, a write and reopen on OS X, then with a translation the metadata, the bitcode and (off OS X) a second update |
| LinkArchive.ObjectMembers | src/librustc/back/link.rs:1008-1029 | the object phase adds the object, then the static native libraries |
| LinkArchive.MagicMembers | src/librustc/back/link.rs:1052-1110 | the metadata phase adds the metadata, then the bitcode |
| LinkArchive.RlibWithoutMetadata | src/librustc/back/link.rs:994-1116 | a stripped rlib holds the object and the static native libraries only |
| LinkArchive.RlibWithMetadata | src/librustc/back/link.rs:1052-1113 | a full rlib holds the same members followed by the metadata and the bitcode |
| LinkArchive.RlibObjectFirst | src/librustc/back/link.rs:1008 | the object file is the first member |
| LinkArchive.ObjectPhaseNoMagic | src/librustc/back/link.rs:1008-1029 | the object phase adds no non-object member |
| LinkArchive.RlibMagicLast | src/librustc/back/link.rs:1031-1113 | non-object members exist exactly in a full rlib and all come after every object and native member |
| LinkArchive.RlibSymbolTable | src/librustc/back/link.rs:1019-1109 | on OS X the symbol table is only updated while no non-object member is present; elsewhere the last step updates it |
| LinkArchive.RlibStepsFound | src/librustc/back/link.rs:1144-1157 | every found upstream rlib is merged |
| LinkArchive.RlibStepsOnly | src/librustc/back/link.rs:1144-1157 | nothing but upstream rlibs with the session's LTO flag is merged |
| LinkArchive.RlibStepsMembers | src/librustc/back/link.rs:1144-1157 | every found upstream rlib is merged with the session's LTO flag, and nothing else is merged |
| LinkArchive.AddUpstreamRlibs | src/librustc/back/link.rs:1141-1157 | merges each found rlib in order, reports each missing one, and collects the found crates' native libraries |
| LinkArchive.NativeNotes | src/librustc/back/link.rs:1169-1176 | one note per native dependency, `<kind>: <name>`, in order |
| LinkArchive.NoteNativeLibs | src/librustc/back/link.rs:1169-1176 | produces those notes |
| LinkArchive.LinkStaticlib | src/librustc/back/link.rs:1130-1177 | a stripped rlib, the support libraries, every found upstream rlib, a symbol update and a write; the reported diagnostics |
| LinkArchive.RuntimeMembers | src/librustc/back/link.rs:1136-1139 | `compiler-rt` is always added and `morestack` when stack checking is on |
| LinkArchive.StaticlibParts | src/librustc/back/link.rs:1130-1160 | a static library's members are those of the stripped rlib, the support libraries and the upstream rlibs, in that order |
| LinkArchive.StaticlibMembers | src/librustc/back/link.rs:1130-1160 | object first, no metadata or bitcode, every found upstream rlib and the support libraries present, one symbol update just before the final write |
| LinkArchive.MissingRlibErrorsExactly | src/librustc/back/link.rs:1144-1152 | one error per crate whose rlib is missing, naming it, and no other error |
| LinkArchive.StaticlibReported | src/librustc/back/link.rs:1162-1176 | the warning appears exactly when there are native dependencies, followed at the end by one note per dependency; the only errors are missing rlibs |
| LinkArchive.RemoveFirst | src/librustc/back/link.rs:1545 | removing a member never lengthens the list |
| LinkArchive.RemoveFirstCounts | src/librustc/back/link.rs:1545 | exactly one copy of the name goes when there is one, and nothing changes otherwise |
| LinkArchive.Archive.Open | src/librustc/back/link.rs:1544 | the opened archive lists the copy's members |
| LinkArchive.Archive.RemoveFile | src/librustc/back/link.rs:1545 | removes the first member of that name |
| LinkArchive.Archive.Files | src/librustc/back/link.rs:1546 | lists the current members |
| LinkArchive.KeptAfterLtoExactly | src/librustc/back/link.rs:1544-1549 | the copy is kept exactly when, besides one `<name>.o`, some member ends in `.o` |
| LinkArchive.HasObjectMultiset | src/librustc/back/link.rs:1547 | whether an object remains does not depend on member order |
| LinkArchive.LtoPruningExamples | src/librustc/back/link.rs:1544-1549 | an rlib with only its own object (and metadata and bitcode) is dropped; one with another object is kept |
| LinkCommand.Command.New | src/librustc/back/link.rs:1189 | a command for the program with no arguments |
| LinkCommand.Command.Arg | src/librustc/back/link.rs:1256 | appends one argument |
| LinkCommand.Command.Args | src/librustc/back/link.rs:1191 | appends a list of arguments |
| LinkCommand.GetCcProg | src/librustc/back/link.rs:813-818 | the `-C linker` override when given, the target's linker otherwise |
| LinkCommand.SearchFlags | src/librustc/back/link.rs:1408-1415 | two arguments per directory |
| LinkCommand.AddSearchFlags | src/librustc/back/link.rs:1408-1415 | appends `-L <dir>` for each directory in order |
| LinkCommand.AddLocalLib | src/librustc/back/link.rs:1423-1440 | appends one local library's arguments |
| LinkCommand.AddLocalLibs | src/librustc/back/link.rs:1423-1440 | appends each local library's arguments in order |
| LinkCommand.AddLocalNativeLibraries | src/librustc/back/link.rs:1407-1444 | appends the search directories, the libraries and, where hints are taken, a final `-Wl,-Bdynamic` |
| LinkCommand.LocalLibsAppend | src/librustc/back/link.rs:1423-1440 | the libraries' arguments are those of each library in turn |
| LinkCommand.LocalLibHints | src/librustc/back/link.rs:1421-1440 | a framework is `-framework <name>`; where hints are taken a static library is preceded by `-Wl,-Bstatic` and any other by `-Wl,-Bdynamic`; otherwise just `-l<name>` |
| LinkCommand.LocalNativeEnds | src/librustc/back/link.rs:1441-1443 | where hints are taken the last argument is `-Wl,-Bdynamic`; on OS X no hint is emitted |
| LinkCommand.Unlib | src/librustc/back/link.rs:1493-1499 | drops a leading `lib` from the stem except on Windows, and keeps the stem otherwise |
| LinkCommand.DynamicCrateArgs | src/librustc/back/link.rs:1557-1570 | an internal error exactly under LTO; otherwise `-L <dir>` and one `-l` argument |
| LinkCommand.AddDynamicCrate | src/librustc/back/link.rs:1557-1570 | fails exactly as `DynamicCrateArgs` does, and otherwise appends its arguments |
| LinkCommand.StaticCrateArgs | src/librustc/back/link.rs:1502-1554 | without LTO the rlib itself; with LTO something exactly when the pruned copy keeps an object |
| LinkCommand.AnyObject | src/librustc/back/link.rs:1547 | whether some member name ends in `.o` |
| LinkCommand.AddStaticCrate | src/librustc/back/link.rs:1502-1554 | removes `<name>.o` from the copy, lists it, and appends what `StaticCrateArgs` says |
| LinkCommand.UpstreamSkipsNotNeeded | src/librustc/back/link.rs:1476-1479 | a crate the format table marks as not needed adds nothing |
| LinkCommand.UpstreamRustErrPrefix | src/librustc/back/link.rs:1451-1490 | once a crate's arguments fail, the arguments of all crates fail with the same error |
| LinkCommand.UpstreamRustFails | src/librustc/back/link.rs:1472-1490 | the upstream crates fail exactly under LTO with a crate to be linked dynamically |
| LinkCommand.AddUpstreamRustCrates | src/librustc/back/link.rs:1451-1490 | appends each needed crate's arguments in crate order, or fails as `UpstreamRustArgs` does |
| LinkCommand.UpstreamLibArgs | src/librustc/back/link.rs:1605-1616 | an upstream native library fails exactly when it is static |
| LinkCommand.UpstreamLibsFail | src/librustc/back/link.rs:1604-1617 | the upstream native libraries fail exactly when one of them is static |
| LinkCommand.UpstreamLibsAppend | src/librustc/back/link.rs:1602-1618 | the arguments of two runs of libraries are those of each in turn, the first error winning |
| LinkCommand.AddUpstreamLibs | src/librustc/back/link.rs:1604-1617 | appends `-l<name>` or `-framework <name>` per library, or fails at a static one |
| LinkCommand.NativeLibsErrPrefix | src/librustc/back/link.rs:1601-1619 | once a crate's native libraries fail, all upstream native libraries fail with the same error |
| LinkCommand.AddUpstreamNativeLibraries | src/librustc/back/link.rs:1591-1619 | does that for every crate's libraries in crate order |
| LinkCommand.AllNativeLibsHas | src/librustc/back/link.rs:1601-1604 | every library of every crate is among those visited |
| LinkCommand.AllNativeLibsPrefix | src/librustc/back/link.rs:1601-1604 | the libraries of the first crates are visited first |
| LinkCommand.AddHeadArgs | src/librustc/back/link.rs:1251-1307 | appends `-L <lib>`, `-o <out> <obj>` and the target-dependent flags |
| LinkCommand.AddHeadFlags | src/librustc/back/link.rs:1277-1307 | `force_load` of morestack on OS X with stack checking, the metadata object for a dylib, `--gc-sections` for a non-OS X executable, `-O1` for an optimising GNU link |
| LinkCommand.AddOutputKindArgs | src/librustc/back/link.rs:1348-1361 | a dylib is `-shared`, or on OS X `-dynamiclib -Wl,-dylib` with an rpath-relative install name when rpaths are on |
| LinkCommand.AddTailArgs | src/librustc/back/link.rs:1348-1393 | the output-kind flags, the rpath flags when rpaths are on, the `-C link-args` and the crates' `#[link_args]` |
| LinkCommand.LinkArgs | src/librustc/back/link.rs:1241-1394 | appends the head, the upstream crates, the local and the upstream native libraries and the tail, or fails at the first internal error |
| LinkCommand.LinkNatively | src/librustc/back/link.rs:1183-1194 | the command is the linker program with pre-link arguments, link arguments and post-link arguments |
| LinkCommand.LinkArgsFails | src/librustc/back/link.rs:1241-1394 | the link fails exactly under LTO with a dynamic crate or with a propagated static library, the LTO error winning |
| LinkCommand.LinkArgsFrame | src/librustc/back/link.rs:1256-1393 | a successful argument list starts with `-L <lib> -o <out> <obj>` and ends with the user's then the crates' link arguments |
| LinkCommand.UnixDylibLinkName | src/librustc/back/link.rs:1557-1570 | a dylib named by `filename_for_input` on a Unix target links as `-L <dir> -l{N}{X}` |
| LinkCommand.WindowsDylibLinkName | src/librustc/back/link.rs:1493-1499 | on Windows the whole stem is the `-l` name |
| LinkCommand.DylibStem | src/librustc/back/link.rs:911-918 | a dylib's stem is its prefix and library name |
| LinkCommand.LinuxDylibLinkName | src/librustc/back/link.rs:1564-1569 | with the Linux base crate `foo` links as `-lfoo` |
| LinkCommand.WindowsDylibKeepsPrefix | src/librustc/back/link.rs:1493-1499 | with the Windows base, crate `libfoo` links as `-llibfoo` |
| LinkCommand.LtoRlibPruned | src/librustc/back/link.rs:1518-1549 | under LTO the copy of an rlib named by `filename_for_input` is linked exactly when it keeps an object besides `{N}{X}.o` |
| LinkCommand.LtoRlibDropped | src/librustc/back/link.rs:1544-1549 | an rlib holding only its object, metadata and bitcode disappears from the LTO link line |
| LinkCommand.ScenarioRust | src/librustc/back/link.rs:1472-1490 | a static crate then a dynamic `libB.so` give the archive, `-L <dir>` and `-lB` |
| LinkCommand.ScenarioNative | src/librustc/back/link.rs:1601-1618 | an upstream library `M` gives `-lM` |
| LinkCommand.ScenarioLocal | src/librustc/back/link.rs:1423-1434 | a local library `N` gives `-lN` |
| LinkCommand.LinkOrderScenario | src/librustc/back/link.rs:1342-1344 | the linker sees the object, a static crate's archive, a dynamic crate's `-lB`, the local `-lN` and the upstream `-lM`, in that order |

## Left out

- LLVM: `write_output_file`, `llvm_err`, `run_passes`, `configure_llvm`, `populate_llvm_passes` and `run_assembler` call into the code generator or spawn processes.
- Spawning the linker, reporting its failure, printing the command and running `dsymutil` (`link.rs:1196-1238`) are process effects. Only the command is modelled.
- File-system effects are left out:
  - removing temporaries in `link_binary`;
  - the writability checks of `link_binary_output`, with their fatal errors;
  - writing the metadata, compressing the bitcode, and their error reports;
  - the temporary directories;
  - the `fs::copy` of an rlib under LTO, with its error.
- The SHA-256 digest is a function parameter and deflate is not modelled: their algorithms are outside the driver.
- The type encoder and `token::get_name` are outside the driver. The encoded type and the path components are strings.
- The archive tool and the archive format are not part of this model. This covers `src/librustc_back/archive.rs`: each `ArchiveBuilder` operation is a recorded step, and what `add_rlib` and `add_native_library` copy into the archive is not modelled. `METADATA_FILENAME` is taken to be `rust.metadata.bin`.
- `archive_search_paths` is left out: its order comes from a hash set.
- `find_crate_name` and `build_link_meta` depend on the attribute AST and on crate hashing.
- `mangle_internal_name_by_type_and_seq`, `mangle_internal_name_by_path_and_seq` and `get_ar_prog` are outside the core.
- The rpath flags are computed by the rpath module, which is outside the driver; here they are a session field.
- The sysroot library path, `RUST_PATH` and `RUST_TARGET_PATH` come from the environment; here they are parameters.
- The per-triple built-in target constructors are outside the model, and a built-in hit is reported by its normalised name.
- JSON parsing of a file is done outside the driver. A file maps to its parsed document, or `None` when it does not open or parse.
- Panics of the crate store's invariants become the precondition `SourcesKnown`:
  - the `unwrap` calls on the crate's sources (`link.rs:1480-1487`);
  - the `data.get(cnum - 1)` lookup in the format table (`link.rs:1476`);
  - the `name.slice(3, name.len() - 5)` of an rlib's file name under LTO, which needs at least eight bytes (`link.rs:1520`).
- Internal errors that abort become error results instead of panics:
  - `sess.bug` on a propagated static library and `assert!(!lto)` in `add_dynamic_crate` become `LinkError`;
  - `sess.bug` on an output kind the target rejects (`link.rs:846-848`) becomes `Err(kind)` in `LinkBinary`;
  - the `unwrap` calls of `from_json` on a missing required key and on a non-string list element (`target/mod.rs:145-161`) become a load error (`JsonError`).
- The `if !dir.is_empty()` of `add_dynamic_crate` never skips, because `dirname` of a bare file name is `.`. So `-L <dir>` is always emitted (`link.rs:1564-1565`).
- Upstream crates are taken in one crate-store order. `get_used_crates` is assumed to list them in the same order for `RequireDynamic` and `RequireStatic` (`link.rs:1470`, `1141`, `1601`).
- Timing of passes (`time`) is not modelled, as it has no effect on the result.
- Target.FromJson, Target.Parse, Target.LoadedRequired, Target.LoadedVerifies, Target.LoadFile, Target.SearchDirs, Target.Load, Target.Search and Target.SearchVerified follow the corrected reading of the required fields (the second row of "## Findings"): a required key that is missing or not a string is a load error. The code as written (`target/mod.rs:145-151`) never fails on a non-string value; it stores the text `None`. That behaviour is modelled by `Target.RequiredAsWritten` and `Target.RequiredAsWrittenAcceptsNumber`.
- LinkOutputs.ExeExtension, LinkOutputs.FilenameForInput, LinkOutputs.ExecutableNames, LinkOutputs.ExecutableSuffix, LinkOutputs.OutputFilename and LinkOutputs.LinkBinary follow the corrected reading of the executable name (the first row of "## Findings"): the suffix's leading dot is dropped before `with_extension`. The code as written (`link.rs:922-924`) passes the whole suffix and names the Windows executable `foo..exe`. That behaviour is modelled by `LinkOutputs.FilenameForInputAsWritten` and `LinkOutputs.DoubleDotExecutable`.
- LinkCommand.DynamicCrateArgs: its own contract gives only the shape of the arguments. The exact `-l` name is stated by `UnixDylibLinkName`, `WindowsDylibLinkName`, `LinuxDylibLinkName` and `WindowsDylibKeepsPrefix`.

## Findings

| source | as written | input that shows it | evidently intended | confidence | as-written member | corrected member |
|---|---|---|---|---|---|---|
| src/librustc/back/link.rs:922-924 | the executable's name is `out.with_extension(exe_suffix)`, and `with_extension` adds its own dot | the Windows base (`exe_suffix = ".exe"`) and output `foo`: the executable is named `foo..exe` | `foo.exe`: the suffix without its leading dot as the extension | not executed | LinkOutputs.DoubleDotExecutable | LinkOutputs.ExecutableNames |
| src/librustc_back/target/mod.rs:145-151 | a required field is `find(key).unwrap().as_string().to_string()`, so the optional string is rendered as text | `{"arch": "x86"}` gives `arch = "Some(x86)"`; `{"arch": 1}` gives `arch = "None"`, which `verify` accepts | the string itself, and a missing or non-string required key is an error | not executed | Target.RequiredAsWrittenAcceptsNumber | Target.RequiredString |
