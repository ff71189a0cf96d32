/** Toolset: a validated compiler environment, and the architecture menus the
    environment-setup scripts are probed against. */
module Toolsets {
  import opened FileSystems

  const V120: string := "v120"
  const V140: string := "v140"
  const V141: string := "v141"

  datatype CpuArchitecture = X86 | X64 | ARM | ARM64

  /** ToolsetArchOption: a vcvarsall architecture argument with its host and target. */
  datatype ToolsetArchOption = ToolsetArchOption(name: string, host: CpuArchitecture, target: CpuArchitecture)

  /** One menu entry: the script, relative to the probed folder, whose existence
      makes the option available. */
  datatype ArchScript = ArchScript(script: Path, option: ToolsetArchOption)

  /** The eight sub-scripts beside a VS2017 vcvarsall.bat (lines 162-177). */
  const MODERN_ARCH_MENU: seq<ArchScript> := [
    ArchScript(["vcvars32.bat"], ToolsetArchOption("x86", X86, X86)),
    ArchScript(["vcvars64.bat"], ToolsetArchOption("amd64", X64, X64)),
    ArchScript(["vcvarsx86_amd64.bat"], ToolsetArchOption("x86_amd64", X86, X64)),
    ArchScript(["vcvarsx86_arm.bat"], ToolsetArchOption("x86_arm", X86, ARM)),
    ArchScript(["vcvarsx86_arm64.bat"], ToolsetArchOption("x86_arm64", X86, ARM64)),
    ArchScript(["vcvarsamd64_x86.bat"], ToolsetArchOption("amd64_x86", X64, X86)),
    ArchScript(["vcvarsamd64_arm.bat"], ToolsetArchOption("amd64_arm", X64, ARM)),
    ArchScript(["vcvarsamd64_arm64.bat"], ToolsetArchOption("amd64_arm64", X64, ARM64))
  ]

  /** The six scripts under a VS2015 / VS2013 VC\bin folder (lines 240-251). */
  const LEGACY_ARCH_MENU: seq<ArchScript> := [
    ArchScript(["vcvars32.bat"], ToolsetArchOption("x86", X86, X86)),
    ArchScript(["amd64", "vcvars64.bat"], ToolsetArchOption("x64", X64, X64)),
    ArchScript(["x86_amd64", "vcvarsx86_amd64.bat"], ToolsetArchOption("x86_amd64", X86, X64)),
    ArchScript(["x86_arm", "vcvarsx86_arm.bat"], ToolsetArchOption("x86_arm", X86, ARM)),
    ArchScript(["amd64_x86", "vcvarsamd64_x86.bat"], ToolsetArchOption("amd64_x86", X64, X86)),
    ArchScript(["amd64_arm", "vcvarsamd64_arm.bat"], ToolsetArchOption("amd64_arm", X64, ARM))
  ]

  datatype Toolset = Toolset(
    visualStudioRoot: Path,
    dumpbin: Path,
    vcvarsall: Path,
    vcvarsallOptions: seq<string>,
    version: string,
    supportedArchitectures: seq<ToolsetArchOption>)

  /** The English language pack folder that must sit beside dumpbin.exe. */
  function LanguagePack(dumpbin: Path): Path {
    Parent(dumpbin) + ["1033"]
  }

  /** What every usable toolset must have on disk. */
  predicate IsComplete(fs: FileSystem, t: Toolset) {
    Exists(fs, t.vcvarsall) && Exists(fs, t.dumpbin) && Exists(fs, LanguagePack(t.dumpbin))
  }

  function Options(menu: seq<ArchScript>): (options: seq<ToolsetArchOption>)
    ensures |options| == |menu|
    ensures forall i :: 0 <= i < |menu| ==> options[i] == menu[i].option
  {
    seq(|menu|, i requires 0 <= i < |menu| => menu[i].option)
  }

  /** a is b with some elements dropped, the rest in their original order. */
  ghost predicate IsSubsequence<T>(a: seq<T>, b: seq<T>)
    decreases |b|
  {
    if a == [] then true
    else if b == [] then false
    else (a[0] == b[0] && IsSubsequence(a[1..], b[1..])) || IsSubsequence(a, b[1..])
  }

  /** supported_architectures: the menu options whose script exists under dir,
      in menu order, and nothing else. */
  function SupportedArchitectures(fs: FileSystem, dir: Path, menu: seq<ArchScript>): (r: seq<ToolsetArchOption>)
    ensures IsSubsequence(r, Options(menu))
    ensures forall o :: o in r <==> exists e :: e in menu && e.option == o && Exists(fs, dir + e.script)
  {
    if menu == [] then []
    else
      var rest := SupportedArchitectures(fs, dir, menu[1..]);
      assert Options(menu)[1..] == Options(menu[1..]);
      assert forall e :: e in menu <==> e == menu[0] || e in menu[1..];
      if Exists(fs, dir + menu[0].script) then [menu[0].option] + rest else rest
  }
}
