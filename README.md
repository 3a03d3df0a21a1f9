# A model of the iOS framework binding build script

The repository is one Cargo build script, `build.rs`, that generates Rust
bindings for every system framework of an iOS SDK. It picks the SDK variant
for the target triple, asks `xcrun` for that SDK's path, lists the SDK's
framework directory, keeps each framework that has a primary header, prints
one link directive per framework, writes a meta header that includes all of
their headers, and configures `bindgen` with clang flags and a denylist.

This project models the decision layer of that script in Dafny and proves
what it does. External processes and the file system are parameters:

- `xcrun` is a function from its argument list to the standard output text,
  or `None` when the process cannot be launched (its exit status is not
  inspected, so a run that fails yields its output, usually empty);
- `read_dir` is a function from a directory path to its entries, each
  `Unreadable`, `NoStem(path)` or `Stemmed(path, stem)`;
- `Path::exists` is a predicate on path strings;
- `TARGET` is a string argument and `OUT_DIR` an optional string;
- printed Cargo directives are returned as a sequence of strings, and the
  `bindgen::Builder` is a datatype value reassigned step by step.

Modules, in the order the script runs:

- `Text`: `str::contains` and `str::trim_end`, with Rust's white-space class.
- `Sdk`: `sdk_path`, the variant mapping, the `xcrun` call and the trim.
- `FrameworkListing`: `get_frameworks`, a loop over the directory listing.
- `Bindings`: `build`, with the target guard, the ARM target rewrite, the link
  directives and headers, the meta header, the clang flags and the denylist.
- `Script`: `main`, with its target guard and the `.ok()` on `sdk_path`.
- `Wrappers`: the `Option` type.

Facts proved about the script as written:

- A target such as `x86_64-apple-darwin` passes `main`'s guard but is then
  refused by `build`, so only triples containing `apple-ios` ever generate.
- A triple that contains `apple-ios` but is not one of the five named ones,
  such as `aarch64-apple-ios-sim`, passes both guards' tests but reaches
  `unreachable!()` in `sdk_path`. The `.ok()` in `main` does not catch that.
- Generation succeeds exactly for the five named iOS triples, and for
  triples that contain both `apple-darwin` and `apple-ios`, when `OUT_DIR`
  is set.

## Model

| member | source | states |
|---|---|---|
| `Text.TrimEnd` | build.rs:24 | the result is a prefix of the text, everything removed is white space, and the result does not end in white space |
| `Text.TrimmedFromUnique` | build.rs:24 | those three conditions fix the trimmed string uniquely |
| `Text.TrimEndCharacterised` | build.rs:24 | any prefix meeting those conditions is `TrimEnd` of the text |
| `Text.TrimEndIdempotent` | build.rs:24 | trimming twice equals trimming once |
| `Text.TrimEndKeeps` | build.rs:24 | a string that does not end in white space is unchanged |
| `Text.TrimEndOfPadded` | build.rs:24 | a path followed by white space (a trailing newline from `xcrun`) trims back to the path |
| `Sdk.DarwinFirst` | build.rs:6-7 | any target containing `apple-darwin` maps to `macosx`, whatever else it contains |
| `Sdk.SimulatorTargets` | build.rs:8-9 | `x86_64-apple-ios` and `i386-apple-ios` map to `iphonesimulator` |
| `Sdk.DeviceTargets` | build.rs:10-14 | `aarch64-apple-ios`, `armv7-apple-ios` and `armv7s-apple-ios` map to `iphoneos` |
| `Sdk.IosTargetsAreNotDarwin` | build.rs:6-14 | none of the five iOS triples contains `apple-darwin`, so none is caught by the first test |
| `Sdk.IosTargetsAreIos` | build.rs:8-14 | each of the five iOS triples contains `apple-ios` |
| `Sdk.SelectVariant` | build.rs:6-17 | the prioritised variant choice; macOS exactly for targets containing `apple-darwin`; a variant exactly for those and the five iOS triples, all else is unreachable |
| `Sdk.ArmSimulatorUnreachable` | build.rs:15-17 | `aarch64-apple-ios-sim` contains `apple-ios` yet reaches `unreachable!()` |
| `Sdk.XcrunArgs` | build.rs:20 | the argument list `--sdk <variant> --show-sdk-path` (no contract of its own; see `XcrunArgsInjective`) |
| `Sdk.XcrunArgsInjective` | build.rs:19-20 | different variants give different `xcrun` argument lists |
| `Sdk.SdkPath` | build.rs:3-25 | unreachable exactly when no variant is chosen; an io error exactly when `xcrun` cannot be launched; otherwise the trimmed output of `xcrun --sdk <variant> --show-sdk-path`, whatever its exit status |
| `FrameworkListing.FrameworkRoot` | build.rs:29 | the framework root `<sdk>/System/Library/Frameworks/` (no contract of its own; `join` read as concatenation) |
| `FrameworkListing.Frameworks` | build.rs:31-48 | the names kept from a listing, at most one per entry; characterised by `FrameworksInOrder` and `FrameworksMembership` |
| `FrameworkListing.GetFrameworks` | build.rs:26-49 | the loop over the framework root returns exactly `Frameworks` of the listing |
| `FrameworkListing.FrameworksInOrder` | build.rs:31-48 | the k-th name is the stem of the k-th kept entry; kept positions increase; every readable, stemmed entry whose header exists is among them |
| `FrameworkListing.FrameworksMembership` | build.rs:35-43 | a name is returned iff some readable entry with that stem has an existing `<entry>/Headers/<stem>.h` |
| `FrameworkListing.FrameworksAppend` | build.rs:32-46 | the loop processes entries independently: a split listing gives the concatenated results |
| `FrameworkListing.ThreeFrameworkListing` | build.rs:32-46 | of A, B, C with headers only for A and C, plus an unreadable and a stemless entry, the result is exactly `[A, C]` |
| `Bindings.LinkDirective` | build.rs:91 | the directive `cargo:rustc-link-lib=framework=<f>` (no contract of its own; see `LinkedFrameworkOfDirective`) |
| `Bindings.HeaderOf` | build.rs:92 | the header `<f>/<f>.h` (no contract of its own; see `HeaderOfInjective`) |
| `Bindings.LinkDirectives` | build.rs:90-91 | one directive per framework, directive k being `cargo:rustc-link-lib=framework=` followed by framework k |
| `Bindings.FrameworkHeaders` | build.rs:90-92 | one header per framework, header k being `f/f.h` for framework k |
| `Bindings.LinkedFrameworkOfDirective` | build.rs:91 | a link directive reads back as the framework it was made for |
| `Bindings.LinkDirectivesReadBack` | build.rs:90-91 | directive k of the list reads back as framework k |
| `Bindings.HeaderOfInjective` | build.rs:92 | distinct frameworks give distinct header names |
| `Bindings.FrameworkHeadersDistinct` | build.rs:90-92 | distinct framework names give a header list without repeats, so no header is included twice |
| `Bindings.MetaHeader` | build.rs:121-124 | the `map`/`collect`/`concat` of `#include <h>` lines (no contract of its own; see the four lemmas below) |
| `Bindings.MetaHeaderAppend` | build.rs:121-124 | the meta header of a concatenation is the concatenation of the meta headers, so include lines follow header order |
| `Bindings.MetaHeaderEmptyIff` | build.rs:121-127 | the meta header is empty exactly when there are no headers |
| `Bindings.MetaHeaderLineCount` | build.rs:121-124 | the meta header has exactly one line break per header |
| `Bindings.FrameworkMetaHeaderLines` | build.rs:90-124 | the meta header built from the frameworks has one include line per framework |
| `Bindings.TwoFrameworkLinks` | build.rs:90-91 | frameworks A and C give exactly two link directives, for A then C |
| `Bindings.TwoFrameworkMetaHeader` | build.rs:90-127 | frameworks A and C give exactly the two lines `#include <A/A.h>` and `#include <C/C.h>` |
| `Bindings.ClangFlags` | build.rs:85-95 | the clang flags in the order the three `clang_args` calls add them (no contract of its own; stated by `Build`) |
| `Bindings.Builder.ObjcExternCrate` | build.rs:75 | sets `objc_extern_crate` (no contract of its own; the final flags are stated by `Build`) |
| `Bindings.Builder.BlockExternCrate` | build.rs:97 | sets `block_extern_crate` (no contract of its own) |
| `Bindings.Builder.GenerateBlock` | build.rs:98 | sets `generate_block` (no contract of its own) |
| `Bindings.Builder.RustfmtBindings` | build.rs:99 | sets `rustfmt_bindings` (no contract of its own) |
| `Bindings.Builder.TrustClangMangling` | build.rs:130 | sets `trust_clang_mangling` (no contract of its own) |
| `Bindings.Builder.DeriveDefault` | build.rs:130 | sets `derive_default` (no contract of its own) |
| `Bindings.Builder.ClangArgs` | build.rs:85-95 | appends clang arguments (no contract of its own; the final list is stated by `Build`) |
| `Bindings.Builder.BlocklistItem` | build.rs:103-119 | appends one denylisted item (no contract of its own; see `DenyItems`) |
| `Bindings.Builder.HeaderContents` | build.rs:127 | adds a named in-memory header (no contract of its own; stated by `Build`) |
| `Bindings.LinkFrameworks` | build.rs:90-93 | the loop returns one link directive and one header per framework that `get_frameworks` finds, in its order |
| `Bindings.DenyItems` | build.rs:103-119 | the eight `blacklist_item` calls append exactly the denylist `timezone`, `settimeofday`, `MPSSVGF`, `IUIStepper`, `ISCNCameraController`, `PDFView`, `IPDFThumbnailView`, `objc_object` and change nothing else |
| `Bindings.ClangTarget` | build.rs:79-83 | the target rewrite (no contract of its own; see the two lemmas below) |
| `Bindings.ClangTargetChangesOnlyAarch64` | build.rs:79-83 | the target is changed exactly when it is `aarch64-apple-ios` |
| `Bindings.ClangTargetKeepsIos` | build.rs:79-85 | the rewritten target contains `apple-ios` exactly when the original does |
| `Bindings.Build` | build.rs:51-138 | aborts exactly when the target lacks `apple-ios` (then when `OUT_DIR` is unset); otherwise the rerun directive then one link directive per discovered framework, none without an SDK path; the clang flags `--target=` of the rewritten target, `-isysroot <sdk>` when known, `-x objective-c -fblocks`; the eight denylisted items in order; one `Foundation.h` whose contents are the meta header of the frameworks' headers; every builder flag as set; output file `all_bindings.rs` in `OUT_DIR` |
| `Script.SdkDirectory` | build.rs:146 | `sdk_path(..).ok()` is a path exactly when `sdk_path` found one, and that path is the trimmed `xcrun` output |
| `Script.SilentXcrunGivesEmptyPath` | build.rs:19-24 | a `xcrun` that runs but prints only a line break gives the empty path, not the no-SDK fallback, and `-isysroot ""` is passed |
| `Script.RunBuildScript` | build.rs:140-148 | the abort reason for each class of target (not Apple, unreachable, not iOS); generation exactly for the five iOS triples or darwin-and-iOS triples with `OUT_DIR` set; the link directives, clang flags, meta header, denylist and output file of a generating run; when `xcrun` cannot be launched, no link directives and an empty meta header |

## Left out

- Running `xcrun` and decoding its output as UTF-8 (build.rs:19-23): the output text is a parameter; invalid UTF-8 is not modelled.
- `read_dir` failing on the framework root (build.rs:33): the listing is a parameter, so this abort is not modelled.
- Path semantics of `join`, `file_stem` and `to_string_lossy` (build.rs:29, 36-42): entries arrive with their stem already derived, and `join` is concatenation with `/`. So `FrameworkRoot` of the empty SDK path is `/System/Library/Frameworks/` where Rust gives the relative `System/Library/Frameworks/`, and an SDK path ending in `/` gets a doubled slash. The empty path is what a `xcrun` that runs but prints nothing yields.
- What `bindgen` generates, `generate()` failing and `write_to_file` failing (build.rs:132-137): the builder is recorded as data; the effect of the denylist on the output cannot be stated.
- The default values of `bindgen::Builder::default()` (build.rs:74), the constant `DefaultBuilder`, are assumed: its three sequences (clang arguments, denylist, header contents) are taken to start empty, and the results stated for them rely on that. The six boolean flags are all set explicitly by the script, so those results do not depend on the defaults.
- Reading `TARGET` (build.rs:141): `unwrap` failing on a missing variable is not modelled.
- Printing: directives are returned in order rather than written to standard output; the rerun directive is not returned from an aborted run.
