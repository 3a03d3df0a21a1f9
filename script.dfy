/** `main`: the target guard, the SDK lookup and the call to `build`. */
module Script {
  import opened Wrappers
  import opened Text
  import opened Sdk
  import opened FrameworkListing
  import opened Bindings

  /** `sdk_path(target).ok()`: the SDK directory, or `None` when `xcrun`
      could not be run. Not defined for the unreachable case, which aborts. */
  function SdkDirectory(target: string, xcrun: seq<string> -> Option<string>): (d: Option<string>)
    requires SelectVariant(target).Some?
    ensures d.Some? <==> SdkPath(target, xcrun).Found?
    ensures d.Some? ==> TrimmedFrom(d.value, xcrun(XcrunArgs(SelectVariant(target).value)).value)
  {
    match SdkPath(target, xcrun)
    case Found(path) => Some(path)
    case _ => None
  }

  /** The whole script. `target` is `TARGET`, `outDir` is `OUT_DIR`, `xcrun`
      stands for running the developer tool, `readDir` and `onDisk` for the
      file system. */
  method RunBuildScript(target: string, outDir: Option<string>, xcrun: seq<string> -> Option<string>,
                        readDir: string -> seq<DirEntry>, onDisk: string -> bool) returns (o: Outcome)
    ensures o == Aborted(NotAppleTarget) <==> !Contains(target, "apple-darwin") && !Contains(target, "apple-ios")
    ensures o == Aborted(UnsupportedTarget)
        <==> !Contains(target, "apple-darwin") && Contains(target, "apple-ios") && target !in IosTargets
    ensures o == Aborted(NotIos) <==> Contains(target, "apple-darwin") && !Contains(target, "apple-ios")
    ensures o.Generated?
        <==> outDir.Some? && (target in IosTargets || (Contains(target, "apple-darwin") && Contains(target, "apple-ios")))
    ensures o.Generated? ==>
      var d := SdkDirectory(target, xcrun);
      && o.directives == [RerunDirective] + LinkDirectives(Discovered(d, readDir, onDisk))
      && o.builder.clangArgs == ClangFlags(target, d)
      && o.builder.headerContents == [("Foundation.h", MetaHeader(FrameworkHeaders(Discovered(d, readDir, onDisk))))]
      && o.builder.blocklist == Denylist
      && o.outFile == outDir.value + "/all_bindings.rs"
    ensures o.Generated? && SdkPath(target, xcrun).LaunchFailed? ==>
      o.directives == [RerunDirective] && o.builder.headerContents == [("Foundation.h", "")]
  {
    if target in IosTargets {
      IosTargetsAreIos(target);
      IosTargetsAreNotDarwin(target);
    }
    if !(Contains(target, "apple-darwin") || Contains(target, "apple-ios")) {
      return Aborted(NotAppleTarget);
    }
    var located := SdkPath(target, xcrun);
    if located.Unreachable? {
      return Aborted(UnsupportedTarget);
    }
    var directory := SdkDirectory(target, xcrun);
    o := Build(directory, target, outDir, readDir, onDisk);
  }

  /** A `xcrun` that runs but prints only a line break (as when the SDK is not
      installed) does not trigger the no-SDK fallback: the SDK directory is the
      empty path, which `build` passes on to `-isysroot`. */
  lemma SilentXcrunGivesEmptyPath(target: string)
    requires SelectVariant(target).Some?
    ensures SdkDirectory(target, (args: seq<string>) => Some("\n")) == Some("")
    ensures ClangFlags(target, SdkDirectory(target, (args: seq<string>) => Some("\n")))[1..3] == ["-isysroot", ""]
  {
    var xcrun := (args: seq<string>) => Some("\n");
    assert IsWhitespace("\n"[0]);
    assert "\n"[..0] == "";
    assert SdkPath(target, xcrun) == Found(TrimEnd("\n"));
  }
}
