/** `sdk_path`: choose the SDK variant for a target triple, ask `xcrun` for
    that SDK's path and trim the answer. */
module Sdk {
  import opened Wrappers
  import opened Text

  /** The three SDK variants `xcrun --sdk` is asked about. */
  datatype Variant = MacOSX | IPhoneSimulator | IPhoneOS

  /** The keyword passed to `xcrun --sdk`. */
  function VariantName(v: Variant): string {
    match v
    case MacOSX => "macosx"
    case IPhoneSimulator => "iphonesimulator"
    case IPhoneOS => "iphoneos"
  }

  /** The prioritised mapping from a target triple to an SDK variant; `None`
      is the `unreachable!()` branch. */
  function SelectVariant(target: string): (v: Option<Variant>)
    ensures v == Some(MacOSX) <==> Contains(target, "apple-darwin")
    ensures v.Some? <==> Contains(target, "apple-darwin") || target in IosTargets
  {
    if Contains(target, "apple-darwin") then Some(MacOSX)
    else if target == "x86_64-apple-ios" || target == "i386-apple-ios" then Some(IPhoneSimulator)
    else if target == "aarch64-apple-ios"
      || target == "armv7-apple-ios"
      || target == "armv7s-apple-ios"
    then Some(IPhoneOS)
    else None
  }

  /** The five iOS triples the mapping names explicitly. */
  const IosTargets: seq<string> :=
    ["x86_64-apple-ios", "i386-apple-ios", "aarch64-apple-ios", "armv7-apple-ios", "armv7s-apple-ios"]

  /** None of the five iOS triples contains "apple-darwin": none has a 'd'. */
  lemma IosTargetsAreNotDarwin(t: string)
    requires t in IosTargets
    ensures !Contains(t, "apple-darwin")
  {
    if Contains(t, "apple-darwin") {
      ContainsChar(t, "apple-darwin", 'd');
      assert false;
    }
  }

  /** Every one of the five iOS triples contains "apple-ios". */
  lemma IosTargetsAreIos(t: string)
    requires t in IosTargets
    ensures Contains(t, "apple-ios")
  {
    var i: nat := |t| - 9;
    assert t[i..i + 9] == "apple-ios";
    assert OccursAt(t, "apple-ios", i);
  }

  /** The darwin test comes first: any target containing "apple-darwin" gets
      the macOS SDK, whatever else it contains. */
  lemma DarwinFirst(target: string)
    requires Contains(target, "apple-darwin")
    ensures SelectVariant(target) == Some(MacOSX)
  {
  }

  /** The two simulator triples select the simulator SDK. */
  lemma SimulatorTargets()
    ensures SelectVariant("x86_64-apple-ios") == Some(IPhoneSimulator)
    ensures SelectVariant("i386-apple-ios") == Some(IPhoneSimulator)
  {
    IosTargetsAreNotDarwin("x86_64-apple-ios");
    IosTargetsAreNotDarwin("i386-apple-ios");
  }

  /** The three device triples select the device SDK. */
  lemma DeviceTargets()
    ensures SelectVariant("aarch64-apple-ios") == Some(IPhoneOS)
    ensures SelectVariant("armv7-apple-ios") == Some(IPhoneOS)
    ensures SelectVariant("armv7s-apple-ios") == Some(IPhoneOS)
  {
    IosTargetsAreNotDarwin("aarch64-apple-ios");
    IosTargetsAreNotDarwin("armv7-apple-ios");
    IosTargetsAreNotDarwin("armv7s-apple-ios");
  }

  /** A triple can contain "apple-ios" and still be unreachable: the arm64
      simulator triple is not one of the five. */
  lemma ArmSimulatorUnreachable()
    ensures Contains("aarch64-apple-ios-sim", "apple-ios")
    ensures SelectVariant("aarch64-apple-ios-sim") == None
  {
    var t := "aarch64-apple-ios-sim";
    assert t[8..17] == "apple-ios";
    assert OccursAt(t, "apple-ios", 8);
    if Contains(t, "apple-darwin") {
      ContainsChar(t, "apple-darwin", 'd');
      assert false;
    }
  }

  /** The argument list of the `xcrun` call for a variant. */
  function XcrunArgs(v: Variant): seq<string> {
    ["--sdk", VariantName(v), "--show-sdk-path"]
  }

  /** Distinct variants ask `xcrun` different questions, so the SDK whose path
      comes back is the one the target selected: a simulator target is never
      given the device SDK's path, nor a device target the simulator's. */
  lemma XcrunArgsInjective(v: Variant, w: Variant)
    requires XcrunArgs(v) == XcrunArgs(w)
    ensures v == w
  {
    assert XcrunArgs(v)[1] == XcrunArgs(w)[1];
  }

  /** What `sdk_path` returns: the path, the io error of a `xcrun` that could
      not be launched, or the `unreachable!()` panic. The exit status of a
      `xcrun` that did run is not inspected: whatever it printed is the path. */
  datatype Located = Found(path: string) | LaunchFailed | Unreachable

  /** `sdk_path(target)`. `xcrun` maps the argument list to the tool's
      standard output, or `None` when the process cannot be launched. */
  function SdkPath(target: string, xcrun: seq<string> -> Option<string>): (r: Located)
    ensures r.Unreachable? <==> SelectVariant(target).None?
    ensures SelectVariant(target).Some? ==>
      var out := xcrun(XcrunArgs(SelectVariant(target).value));
      (r.LaunchFailed? <==> out.None?) && (r.Found? ==> TrimmedFrom(r.path, out.value))
  {
    match SelectVariant(target)
    case None => Unreachable
    case Some(v) =>
      match xcrun(XcrunArgs(v))
      case None => LaunchFailed
      case Some(out) => Found(TrimEnd(out))
  }
}
