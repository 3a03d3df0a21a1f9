/** `build`: check the target, collect one link directive and one header per
    framework, synthesise the meta header and configure bindgen. */
module Bindings {
  import opened Wrappers
  import opened Text
  import opened FrameworkListing

  /** The fatal conditions of the build script. */
  datatype Abort =
    | NotAppleTarget      // `main`: "coreaudio-sys requires macos or ios target"
    | UnsupportedTarget   // `sdk_path`: `unreachable!()`
    | NotIos              // `build`: "This project is only for ios"
    | OutDirMissing       // `build`: "env variable OUT_DIR not found"

  /** The part of a `bindgen::Builder` that the build script configures. Each
      method returns an updated copy, as bindgen's builder methods take and
      return the builder by value. */
  datatype Builder = Builder(
    objcExternCrate: bool,
    blockExternCrate: bool,
    generateBlock: bool,
    rustfmtBindings: bool,
    trustClangMangling: bool,
    deriveDefault: bool,
    clangArgs: seq<string>,
    blocklist: seq<string>,
    headerContents: seq<(string, string)>)
  {
    function ObjcExternCrate(b: bool): Builder { this.(objcExternCrate := b) }
    function BlockExternCrate(b: bool): Builder { this.(blockExternCrate := b) }
    function GenerateBlock(b: bool): Builder { this.(generateBlock := b) }
    function RustfmtBindings(b: bool): Builder { this.(rustfmtBindings := b) }
    function TrustClangMangling(b: bool): Builder { this.(trustClangMangling := b) }
    function DeriveDefault(b: bool): Builder { this.(deriveDefault := b) }
    function ClangArgs(args: seq<string>): Builder { this.(clangArgs := clangArgs + args) }
    function BlocklistItem(name: string): Builder { this.(blocklist := blocklist + [name]) }
    function HeaderContents(name: string, contents: string): Builder {
      this.(headerContents := headerContents + [(name, contents)])
    }
  }

  /** `bindgen::Builder::default()`. */
  const DefaultBuilder: Builder := Builder(false, false, false, true, true, false, [], [], [])

  /** The items withheld from the generated bindings. */
  const Denylist: seq<string> :=
    ["timezone", "settimeofday", "MPSSVGF", "IUIStepper", "ISCNCameraController",
     "PDFView", "IPDFThumbnailView", "objc_object"]

  /** The eight `blacklist_item` calls of `build`, in order: they append
      exactly the denylist and change nothing else. */
  function DenyItems(b: Builder): (r: Builder)
    ensures r == b.(blocklist := b.blocklist + Denylist)
  {
    b
      .BlocklistItem("timezone")
      .BlocklistItem("settimeofday")
      .BlocklistItem("MPSSVGF")
      .BlocklistItem("IUIStepper")
      .BlocklistItem("ISCNCameraController")
      .BlocklistItem("PDFView")
      .BlocklistItem("IPDFThumbnailView")
      .BlocklistItem("objc_object")
  }

  /** The directive printed before any generation work. */
  const RerunDirective: string := "cargo:rerun-if-env-changed=BINDGEN_EXTRA_CLANG_ARGS"

  const LinkPrefix: string := "cargo:rustc-link-lib=framework="

  /** The directive asking Cargo to link against a framework. */
  function LinkDirective(framework: string): string {
    LinkPrefix + framework
  }

  /** The framework a link directive names, if it is one. */
  function LinkedFramework(directive: string): Option<string> {
    if |LinkPrefix| <= |directive| && directive[..|LinkPrefix|] == LinkPrefix
    then Some(directive[|LinkPrefix|..])
    else None
  }

  /** A link directive names the framework it was made for. */
  lemma LinkedFrameworkOfDirective(framework: string)
    ensures LinkedFramework(LinkDirective(framework)) == Some(framework)
  {
    var d := LinkDirective(framework);
    assert d[..|LinkPrefix|] == LinkPrefix;
    assert d[|LinkPrefix|..] == framework;
  }

  /** The primary header of a framework, relative to the framework root. */
  function HeaderOf(framework: string): string {
    framework + "/" + framework + ".h"
  }

  /** Distinct frameworks have distinct headers: no framework's header is
      included under another framework's name. */
  lemma HeaderOfInjective(f: string, g: string)
    requires HeaderOf(f) == HeaderOf(g)
    ensures f == g
  {
    assert |f| == |g|;
    assert f == HeaderOf(f)[..|f|];
    assert g == HeaderOf(g)[..|g|];
  }

  /** Distinct frameworks give distinct headers, so the meta header includes
      no header twice unless `get_frameworks` yields a name twice. */
  lemma FrameworkHeadersDistinct(fw: seq<string>)
    requires forall k, l :: 0 <= k < l < |fw| ==> fw[k] != fw[l]
    ensures var hs := FrameworkHeaders(fw);
      forall k, l :: 0 <= k < l < |hs| ==> hs[k] != hs[l]
  {
    var hs := FrameworkHeaders(fw);
    forall k, l | 0 <= k < l < |hs| ensures hs[k] != hs[l] {
      if hs[k] == hs[l] {
        HeaderOfInjective(fw[k], fw[l]);
      }
    }
  }

  /** The link directives printed for a framework list, one per framework. */
  function LinkDirectives(fw: seq<string>): (ds: seq<string>)
    ensures |ds| == |fw|
    ensures forall k :: 0 <= k < |fw| ==> ds[k] == LinkDirective(fw[k])
  {
    if fw == [] then [] else LinkDirectives(fw[..|fw| - 1]) + [LinkDirective(fw[|fw| - 1])]
  }

  /** The `headers` vector for a framework list, one per framework. */
  function FrameworkHeaders(fw: seq<string>): (hs: seq<string>)
    ensures |hs| == |fw|
    ensures forall k :: 0 <= k < |fw| ==> hs[k] == HeaderOf(fw[k])
  {
    if fw == [] then [] else FrameworkHeaders(fw[..|fw| - 1]) + [HeaderOf(fw[|fw| - 1])]
  }

  /** Every link directive can be read back as the framework it names, in order. */
  lemma LinkDirectivesReadBack(fw: seq<string>, k: nat)
    requires k < |fw|
    ensures LinkedFramework(LinkDirectives(fw)[k]) == Some(fw[k])
  {
    LinkedFrameworkOfDirective(fw[k]);
  }

  /** The include line for one header. */
  function IncludeLine(header: string): string {
    "#include <" + header + ">\n"
  }

  /** The meta header: the include lines of `headers`, concatenated in order. */
  function MetaHeader(headers: seq<string>): string {
    if headers == [] then "" else MetaHeader(headers[..|headers| - 1]) + IncludeLine(headers[|headers| - 1])
  }

  /** The meta header of a concatenation is the concatenation of the meta headers. */
  lemma {:induction false} MetaHeaderAppend(a: seq<string>, b: seq<string>)
    ensures MetaHeader(a + b) == MetaHeader(a) + MetaHeader(b)
  {
    if b == [] {
      assert a + b == a;
    } else {
      var n := |b| - 1;
      assert (a + b)[..|a + b| - 1] == a + b[..n];
      MetaHeaderAppend(a, b[..n]);
    }
  }

  /** The meta header is empty exactly when there are no headers. */
  lemma MetaHeaderEmptyIff(headers: seq<string>)
    ensures MetaHeader(headers) == "" <==> headers == []
  {
    if headers != [] {
      assert |IncludeLine(headers[|headers| - 1])| > 0;
    }
  }

  /** The number of occurrences of `c` in `s`. */
  function Count(c: char, s: string): nat {
    if s == [] then 0 else Count(c, s[..|s| - 1]) + (if s[|s| - 1] == c then 1 else 0)
  }

  lemma {:induction false} CountAppend(c: char, a: string, b: string)
    ensures Count(c, a + b) == Count(c, a) + Count(c, b)
  {
    if b == [] {
      assert a + b == a;
    } else {
      var n := |b| - 1;
      assert (a + b)[..|a + b| - 1] == a + b[..n];
      CountAppend(c, a, b[..n]);
    }
  }

  lemma {:induction false} CountAbsent(c: char, s: string)
    requires c !in s
    ensures Count(c, s) == 0
  {
    if s != [] {
      CountAbsent(c, s[..|s| - 1]);
    }
  }

  /** One line per header: when no header holds a line break, the meta header
      holds exactly as many line breaks as there are headers. */
  lemma {:induction false} MetaHeaderLineCount(headers: seq<string>)
    requires forall k :: 0 <= k < |headers| ==> '\n' !in headers[k]
    ensures Count('\n', MetaHeader(headers)) == |headers|
  {
    if headers != [] {
      var n := |headers| - 1;
      var h := headers[n];
      MetaHeaderLineCount(headers[..n]);
      assert MetaHeader(headers) == MetaHeader(headers[..n]) + (("#include <" + h) + ">\n");
      CountAppend('\n', MetaHeader(headers[..n]), ("#include <" + h) + ">\n");
      CountAppend('\n', "#include <" + h, ">\n");
      CountAppend('\n', "#include <", h);
      CountAbsent('\n', h);
      CountAbsent('\n', "#include <");
      assert ">\n"[..1] == ">";
      CountAbsent('\n', ">");
    }
  }

  lemma HeaderOfKeepsLine(f: string)
    requires '\n' !in f
    ensures '\n' !in HeaderOf(f)
  {
  }

  /** The meta header of a framework list has one include line per framework
      whose name holds no line break. */
  lemma FrameworkMetaHeaderLines(fw: seq<string>)
    requires forall k :: 0 <= k < |fw| ==> '\n' !in fw[k]
    ensures Count('\n', MetaHeader(FrameworkHeaders(fw))) == |fw|
  {
    var hs := FrameworkHeaders(fw);
    forall k | 0 <= k < |hs| ensures '\n' !in hs[k] {
      HeaderOfKeepsLine(fw[k]);
    }
    MetaHeaderLineCount(hs);
  }

  /** Two discovered frameworks give two link directives, one per name. */
  lemma TwoFrameworkLinks()
    ensures LinkDirectives(["A", "C"])
         == ["cargo:rustc-link-lib=framework=A", "cargo:rustc-link-lib=framework=C"]
  {
    assert ["A", "C"][..1] == ["A"];
    assert LinkDirective("A") == "cargo:rustc-link-lib=framework=A";
    assert LinkDirective("C") == "cargo:rustc-link-lib=framework=C";
  }

  /** Two discovered frameworks give a meta header of exactly two include
      lines, each naming `<name>/<name>.h`. */
  lemma TwoFrameworkMetaHeader()
    ensures MetaHeader(FrameworkHeaders(["A", "C"])) == "#include <A/A.h>\n" + "#include <C/C.h>\n"
  {
    assert ["A", "C"][..1] == ["A"];
    assert HeaderOf("A") == "A/A.h" && HeaderOf("C") == "C/C.h";
    var hs := FrameworkHeaders(["A", "C"]);
    assert hs == ["A/A.h", "C/C.h"];
    assert hs[..1] == ["A/A.h"] && hs[..1][..0] == [];
    assert IncludeLine("A/A.h") == "#include <A/A.h>\n";
    assert IncludeLine("C/C.h") == "#include <C/C.h>\n";
  }

  /** The clang target: the 64-bit ARM iOS triple is respelt for clang. */
  function ClangTarget(target: string): string {
    if target == "aarch64-apple-ios" then "arm64-apple-ios" else target
  }

  /** Only the 64-bit ARM iOS triple is changed. */
  lemma ClangTargetChangesOnlyAarch64(target: string)
    ensures ClangTarget(target) == target <==> target != "aarch64-apple-ios"
  {
    assert |"arm64-apple-ios"| != |"aarch64-apple-ios"|;
  }

  /** The rewrite keeps the target an iOS target (and a non-iOS one non-iOS). */
  lemma ClangTargetKeepsIos(target: string)
    ensures Contains(ClangTarget(target), "apple-ios") <==> Contains(target, "apple-ios")
  {
    if target == "aarch64-apple-ios" {
      assert OccursAt("arm64-apple-ios", "apple-ios", 6);
      assert OccursAt("aarch64-apple-ios", "apple-ios", 8);
    }
  }

  /** The `--target=` clang flag. */
  function TargetFlag(target: string): string {
    "--target=" + target
  }

  /** The clang flags passed to bindgen, in order. */
  function ClangFlags(target: string, sdkPath: Option<string>): seq<string> {
    [TargetFlag(ClangTarget(target))]
    + (if sdkPath.Some? then ["-isysroot", sdkPath.value] else [])
    + ["-x", "objective-c", "-fblocks"]
  }

  /** The frameworks `build` links against: those of the listing when an SDK
      path is known, none otherwise. */
  function Discovered(sdkPath: Option<string>, readDir: string -> seq<DirEntry>, onDisk: string -> bool): seq<string> {
    if sdkPath.Some? then Frameworks(readDir(FrameworkRoot(sdkPath.value)), onDisk) else []
  }

  /** The outcome of `build`: an abort, or the directives printed, the
      configured builder and the file the bindings are written to. */
  datatype Outcome =
    | Aborted(reason: Abort)
    | Generated(directives: seq<string>, builder: Builder, outFile: string)

  /** The `for` loop of `build` over `get_frameworks(sdk)`: one link directive
      and one header per framework, in order. */
  method LinkFrameworks(sdk: string, readDir: string -> seq<DirEntry>, onDisk: string -> bool)
    returns (links: seq<string>, headers: seq<string>)
    ensures links == LinkDirectives(Frameworks(readDir(FrameworkRoot(sdk)), onDisk))
    ensures headers == FrameworkHeaders(Frameworks(readDir(FrameworkRoot(sdk)), onDisk))
  {
    var frameworks := GetFrameworks(sdk, readDir, onDisk);
    links, headers := [], [];
    var i := 0;
    while i < |frameworks|
      invariant 0 <= i <= |frameworks|
      invariant links == LinkDirectives(frameworks[..i])
      invariant headers == FrameworkHeaders(frameworks[..i])
    {
      assert frameworks[..i + 1][..i] == frameworks[..i];
      links := links + [LinkDirective(frameworks[i])];
      headers := headers + [HeaderOf(frameworks[i])];
      i := i + 1;
    }
    assert frameworks[..i] == frameworks;
  }

  /** `build(sdk_path, target)`. `outDir` is the `OUT_DIR` variable; `readDir`
      and `onDisk` stand for the file system, as in `GetFrameworks`. */
  method Build(sdkPath: Option<string>, target: string, outDir: Option<string>,
               readDir: string -> seq<DirEntry>, onDisk: string -> bool) returns (o: Outcome)
    ensures o == Aborted(NotIos) <==> !Contains(target, "apple-ios")
    ensures o == Aborted(OutDirMissing) <==> Contains(target, "apple-ios") && outDir.None?
    ensures o.Generated? <==> Contains(target, "apple-ios") && outDir.Some?
    ensures o.Generated? ==> o.directives == [RerunDirective] + LinkDirectives(Discovered(sdkPath, readDir, onDisk))
    ensures o.Generated? ==>
      o.builder.headerContents == [("Foundation.h", MetaHeader(FrameworkHeaders(Discovered(sdkPath, readDir, onDisk))))]
    ensures o.Generated? ==> o.outFile == outDir.value + "/all_bindings.rs"
    ensures o.Generated? ==> o.builder.clangArgs == ClangFlags(target, sdkPath)
    ensures o.Generated? ==> o.builder.blocklist == Denylist
    ensures o.Generated? ==>
      && o.builder.objcExternCrate && o.builder.blockExternCrate && o.builder.generateBlock
      && o.builder.rustfmtBindings && !o.builder.trustClangMangling && o.builder.deriveDefault
  {
    var headers: seq<string> := [];
    if !Contains(target, "apple-ios") {
      return Aborted(NotIos);
    }

    var directives := [RerunDirective];
    if outDir.None? {
      return Aborted(OutDirMissing);
    }

    var builder := DefaultBuilder;
    builder := builder.ObjcExternCrate(true);
    var clangTarget := ClangTarget(target);
    builder := builder.ClangArgs([TargetFlag(clangTarget)]);

    if sdkPath.Some? {
      builder := builder.ClangArgs(["-isysroot", sdkPath.value]);
      var links;
      links, headers := LinkFrameworks(sdkPath.value, readDir, onDisk);
      directives := directives + links;
    }
    builder := builder.ClangArgs(["-x", "objective-c", "-fblocks"]);
    builder := builder.ObjcExternCrate(true);
    builder := builder.BlockExternCrate(true);
    builder := builder.GenerateBlock(true);
    builder := builder.RustfmtBindings(true);
    assert builder.clangArgs == ClangFlags(target, sdkPath);

    builder := DenyItems(builder);

    var metaHeader := MetaHeader(headers);
    builder := builder.HeaderContents("Foundation.h", metaHeader);
    builder := builder.TrustClangMangling(false).DeriveDefault(true);

    o := Generated(directives, builder, outDir.value + "/all_bindings.rs");
  }
}
