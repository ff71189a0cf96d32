/** The resolution loop of find_toolset_instances_preferred_first: each ranked
    instance is checked against the layout of its generation and contributes
    found toolsets, excluded toolsets and examined paths. */
module Resolution {
  import opened TextOrder
  import opened Sorting
  import opened FileSystems
  import opened Instances
  import opened Toolsets

  /** What the loop has produced so far; `stopped` is set by the legacy
      exclusion that breaks out of the whole loop. */
  datatype Progress = Progress(
    found: seq<Toolset>,
    excluded: seq<Toolset>,
    examined: seq<Path>,
    stopped: bool)

  // Paths of the VS2017 layout.
  function ModernVcvarsallDir(root: Path): Path { root + ["VC", "Auxiliary", "Build"] }
  function ModernVcvarsall(root: Path): Path { ModernVcvarsallDir(root) + ["vcvarsall.bat"] }
  function MsvcDir(root: Path): Path { root + ["VC", "Tools", "MSVC"] }
  function ModernDumpbin(subdir: Path): Path { subdir + ["bin", "HostX86", "x86", "dumpbin.exe"] }

  // Paths of the VS2015 / VS2013 layout.
  function LegacyVcvarsall(root: Path): Path { root + ["VC", "vcvarsall.bat"] }
  function LegacyDumpbin(root: Path): Path { root + ["VC", "bin", "dumpbin.exe"] }
  function LegacyBinDir(root: Path): Path { Parent(LegacyVcvarsall(root)) + ["bin"] }

  /** The vcvarsall.bat path an instance of a known generation is probed for. */
  function VcvarsallOf(inst: Instance): Path {
    if MajorVersion(inst) == "15" then ModernVcvarsall(inst.root) else LegacyVcvarsall(inst.root)
  }

  /** unstable_keep_if(is_directory): the listed paths that are directories. */
  function DirectoriesOnly(fs: FileSystem, paths: seq<Path>): (r: seq<Path>)
    ensures forall p :: p in r <==> p in paths && IsDirectory(fs, p)
    ensures multiset(r) <= multiset(paths)
  {
    if paths == [] then []
    else
      assert paths == [paths[0]] + paths[1..];
      (if IsDirectory(fs, paths[0]) then [paths[0]] else []) + DirectoriesOnly(fs, paths[1..])
  }

  function FilenameKey(p: Path): SortKey { SortKey(0, Filename(p)) }

  /** The toolchain folders under VC\Tools\MSVC, latest first. */
  function MsvcSubdirectories(fs: FileSystem, root: Path): seq<Path> {
    SortDescending(DirectoriesOnly(fs, ListChildren(fs, MsvcDir(root))), FilenameKey)
  }

  /** The scanned folders are exactly the listed directories, in descending
      filename order. */
  lemma MsvcSubdirectoriesSpec(fs: FileSystem, root: Path)
    ensures var subdirs := MsvcSubdirectories(fs, root);
      && (forall p :: p in subdirs <==> p in ListChildren(fs, MsvcDir(root)) && IsDirectory(fs, p))
      && (forall i, j :: 0 <= i < j < |subdirs| ==> !LexLess(Filename(subdirs[i]), Filename(subdirs[j])))
  {
    var dirs := DirectoriesOnly(fs, ListChildren(fs, MsvcDir(root)));
    var sorted := SortDescending(dirs, FilenameKey);
    forall p ensures p in sorted <==> p in dirs {
      assert p in sorted <==> p in multiset(sorted);
    }
    forall i, j | 0 <= i < j < |sorted| ensures !LexLess(Filename(sorted[i]), Filename(sorted[j])) {
      assert !Precedes(FilenameKey(sorted[j]), FilenameKey(sorted[i]));
    }
  }

  /** Index of the first folder that holds bin\HostX86\x86\dumpbin.exe, or the
      number of folders when none does. */
  function FirstWithDumpbin(fs: FileSystem, subdirs: seq<Path>): (k: nat)
    ensures k <= |subdirs|
    ensures k < |subdirs| ==> Exists(fs, ModernDumpbin(subdirs[k]))
    ensures forall j :: 0 <= j < k ==> !Exists(fs, ModernDumpbin(subdirs[j]))
  {
    if subdirs == [] then 0
    else if Exists(fs, ModernDumpbin(subdirs[0])) then 0
    else 1 + FirstWithDumpbin(fs, subdirs[1..])
  }

  /** The dumpbin.exe paths probed for the given folders, in order. */
  function DumpbinPaths(subdirs: seq<Path>): (paths: seq<Path>)
    ensures |paths| == |subdirs|
    ensures forall j :: 0 <= j < |subdirs| ==> paths[j] == ModernDumpbin(subdirs[j])
  {
    seq(|subdirs|, j requires 0 <= j < |subdirs| => ModernDumpbin(subdirs[j]))
  }

  /** The scan of the toolchain folders (lines 191-223): the first folder that
      holds dumpbin.exe decides, and no later folder is looked at. */
  function ScanToolchains(fs: FileSystem, root: Path, vcvarsall: Path, archs: seq<ToolsetArchOption>,
                          subdirs: seq<Path>, v140Available: bool): Progress
  {
    var k := FirstWithDumpbin(fs, subdirs);
    if k == |subdirs| then Progress([], [], DumpbinPaths(subdirs), false)
    else
      var dumpbin := ModernDumpbin(subdirs[k]);
      var examined := DumpbinPaths(subdirs[..k + 1]);
      var v141 := Toolset(root, dumpbin, vcvarsall, [], V141, archs);
      if !Exists(fs, LanguagePack(dumpbin)) then Progress([], [v141], examined, false)
      else if v140Available then
        Progress([v141, Toolset(root, dumpbin, vcvarsall, ["-vcvars_ver=14.0"], V140, archs)], [], examined, false)
      else
        Progress([v141], [], examined, false)
  }

  /** The contribution of a VS2017 ("15") instance (lines 150-226). */
  function VisitModern(fs: FileSystem, inst: Instance, v140Available: bool): Progress {
    var vcvarsall := ModernVcvarsall(inst.root);
    if !Exists(fs, vcvarsall) then Progress([], [], [vcvarsall], false)
    else
      var archs := SupportedArchitectures(fs, ModernVcvarsallDir(inst.root), MODERN_ARCH_MENU);
      var scan := ScanToolchains(fs, inst.root, vcvarsall, archs, MsvcSubdirectories(fs, inst.root), v140Available);
      Progress(scan.found, scan.excluded, [vcvarsall] + scan.examined, false)
  }

  /** The contribution of a VS2015 ("14") or VS2013 ("12") instance (lines 228-273);
      `stopped` marks the exclusion that ends the whole loop. */
  function VisitLegacy(fs: FileSystem, inst: Instance): Progress {
    var vcvarsall := LegacyVcvarsall(inst.root);
    if !Exists(fs, vcvarsall) then Progress([], [], [vcvarsall], false)
    else
      var dumpbin := LegacyDumpbin(inst.root);
      var archs := SupportedArchitectures(fs, LegacyBinDir(inst.root), LEGACY_ARCH_MENU);
      if !Exists(fs, dumpbin) then Progress([], [], [vcvarsall, dumpbin], false)
      else
        var toolset := Toolset(inst.root, dumpbin, vcvarsall, [], if MajorVersion(inst) == "14" then V140 else V120, archs);
        if !Exists(fs, LanguagePack(dumpbin)) then Progress([], [toolset], [vcvarsall, dumpbin], true)
        else Progress([toolset], [], [vcvarsall, dumpbin], false)
  }

  /** One iteration of the loop at line 147, dispatched on the major version. */
  function Visit(fs: FileSystem, inst: Instance, v140Available: bool): Progress {
    var major := MajorVersion(inst);
    if major == "15" then VisitModern(fs, inst, v140Available)
    else if major == "14" || major == "12" then VisitLegacy(fs, inst)
    else Progress([], [], [], false)
  }

  function Then(before: Progress, step: Progress): Progress {
    Progress(before.found + step.found, before.excluded + step.excluded,
             before.examined + step.examined, step.stopped)
  }

  /** The loop over the ranked instances: instances after a stop contribute nothing. */
  function Resolve(fs: FileSystem, sorted: seq<Instance>, v140Available: bool): Progress
    decreases |sorted|
  {
    if sorted == [] then Progress([], [], [], false)
    else
      var before := Resolve(fs, sorted[..|sorted| - 1], v140Available);
      if before.stopped then before
      else Then(before, Visit(fs, sorted[|sorted| - 1], v140Available))
  }

  /** Stopping is final: once a prefix has stopped, longer prefixes add nothing. */
  lemma {:induction false} StoppedIsFinal(fs: FileSystem, sorted: seq<Instance>, k: nat, v140Available: bool)
    requires k <= |sorted| && Resolve(fs, sorted[..k], v140Available).stopped
    ensures Resolve(fs, sorted, v140Available) == Resolve(fs, sorted[..k], v140Available)
    decreases |sorted|
  {
    if k < |sorted| {
      var prefix := sorted[..|sorted| - 1];
      assert prefix[..k] == sorted[..k];
      StoppedIsFinal(fs, prefix, k, v140Available);
    } else {
      assert sorted[..k] == sorted;
    }
  }

  /** The loop over the toolchain folders, latest first (lines 191-223). */
  method ScanToolchainFolders(fs: FileSystem, root: Path, vcvarsall: Path, archs: seq<ToolsetArchOption>,
                              subdirs: seq<Path>, v140Available: bool)
    returns (found: seq<Toolset>, excluded: seq<Toolset>, examined: seq<Path>)
    ensures ScanToolchains(fs, root, vcvarsall, archs, subdirs, v140Available) == Progress(found, excluded, examined, false)
  {
    found, excluded, examined := [], [], [];
    var j := 0;
    while j < |subdirs|
      invariant 0 <= j <= |subdirs|
      invariant examined == DumpbinPaths(subdirs[..j])
      invariant forall m :: 0 <= m < j ==> !Exists(fs, ModernDumpbin(subdirs[m]))
      invariant found == [] && excluded == []
    {
      var dumpbin := subdirs[j] + ["bin", "HostX86", "x86", "dumpbin.exe"];
      examined := examined + [dumpbin];
      assert DumpbinPaths(subdirs[..j + 1]) == DumpbinPaths(subdirs[..j]) + [dumpbin];
      if Exists(fs, dumpbin) {
        assert FirstWithDumpbin(fs, subdirs) == j;
        var v141 := Toolset(root, dumpbin, vcvarsall, [], V141, archs);
        if !Exists(fs, Parent(dumpbin) + ["1033"]) {
          excluded := excluded + [v141];
          break;
        }
        found := found + [v141];
        if v140Available {
          found := found + [Toolset(root, dumpbin, vcvarsall, ["-vcvars_ver=14.0"], V140, archs)];
        }
        break;
      }
      j := j + 1;
    }
    assert j == |subdirs| ==> subdirs[..j] == subdirs && FirstWithDumpbin(fs, subdirs) == j;
  }

  /** One more instance: a prefix that has not stopped is extended by that
      instance's contribution. */
  lemma ResolveStep(fs: FileSystem, sorted: seq<Instance>, i: nat, v140Available: bool)
    requires i < |sorted| && !Resolve(fs, sorted[..i], v140Available).stopped
    ensures Resolve(fs, sorted[..i + 1], v140Available) ==
            Then(Resolve(fs, sorted[..i], v140Available), Visit(fs, sorted[i], v140Available))
  {
    assert sorted[..i + 1][..i] == sorted[..i];
  }

  /** The VS2017 branch (lines 150-226). */
  method ResolveModern(fs: FileSystem, inst: Instance, v140Available: bool)
    returns (found: seq<Toolset>, excluded: seq<Toolset>, examined: seq<Path>)
    ensures VisitModern(fs, inst, v140Available) == Progress(found, excluded, examined, false)
  {
    var vcvarsallDir := inst.root + ["VC", "Auxiliary", "Build"];
    var vcvarsall := vcvarsallDir + ["vcvarsall.bat"];
    examined := [vcvarsall];
    if !Exists(fs, vcvarsall) {
      return [], [], examined;
    }
    var archs := SupportedArchitectures(fs, vcvarsallDir, MODERN_ARCH_MENU);
    var subdirs := MsvcSubdirectories(fs, inst.root);
    var scanned;
    found, excluded, scanned := ScanToolchainFolders(fs, inst.root, vcvarsall, archs, subdirs, v140Available);
    examined := examined + scanned;
  }

  /** The VS2015 / VS2013 branch (lines 228-273); `leaveLoop` is the exclusion
      after which the source breaks out of the whole instance loop (line 267). */
  method ResolveLegacy(fs: FileSystem, inst: Instance)
    returns (found: seq<Toolset>, excluded: seq<Toolset>, examined: seq<Path>, leaveLoop: bool)
    requires MajorVersion(inst) == "14" || MajorVersion(inst) == "12"
    ensures VisitLegacy(fs, inst) == Progress(found, excluded, examined, leaveLoop)
  {
    found, excluded, examined, leaveLoop := [], [], [], false;
    var vcvarsall := inst.root + ["VC", "vcvarsall.bat"];
    examined := examined + [vcvarsall];
    if Exists(fs, vcvarsall) {
      var dumpbin := inst.root + ["VC", "bin", "dumpbin.exe"];
      examined := examined + [dumpbin];
      var archs := SupportedArchitectures(fs, Parent(vcvarsall) + ["bin"], LEGACY_ARCH_MENU);
      if Exists(fs, dumpbin) {
        var toolset := Toolset(inst.root, dumpbin, vcvarsall, [], if MajorVersion(inst) == "14" then V140 else V120, archs);
        if !Exists(fs, Parent(dumpbin) + ["1033"]) {
          excluded := excluded + [toolset];
          leaveLoop := true;
          return;
        }
        found := found + [toolset];
      }
    }
  }

  /** The body of the loop at line 147: dispatch on the major version; any
      major version other than "15", "14" and "12" is passed over. */
  method ResolveInstance(fs: FileSystem, inst: Instance, v140Available: bool)
    returns (found: seq<Toolset>, excluded: seq<Toolset>, examined: seq<Path>, leaveLoop: bool)
    ensures Visit(fs, inst, v140Available) == Progress(found, excluded, examined, leaveLoop)
  {
    var major := MajorVersion(inst);
    if major == "15" {
      found, excluded, examined := ResolveModern(fs, inst, v140Available);
      leaveLoop := false;
    } else if major == "14" || major == "12" {
      found, excluded, examined, leaveLoop := ResolveLegacy(fs, inst);
    } else {
      found, excluded, examined, leaveLoop := [], [], [], false;
    }
  }

  /** The loop at line 147 over the ranked instances; it ends early when a
      legacy instance is excluded. */
  method ResolveRanked(fs: FileSystem, sorted: seq<Instance>, v140Available: bool)
    returns (found: seq<Toolset>, excluded: seq<Toolset>, examined: seq<Path>)
    ensures var p := Resolve(fs, sorted, v140Available);
      found == p.found && excluded == p.excluded && examined == p.examined
  {
    found, excluded, examined := [], [], [];
    var i := 0;
    while i < |sorted|
      invariant 0 <= i <= |sorted|
      invariant Resolve(fs, sorted[..i], v140Available) == Progress(found, excluded, examined, false)
    {
      ResolveStep(fs, sorted, i, v140Available);
      var f, x, e, leaveLoop := ResolveInstance(fs, sorted[i], v140Available);
      found, excluded, examined := found + f, excluded + x, examined + e;
      if leaveLoop {
        StoppedIsFinal(fs, sorted, i + 1, v140Available);
        break;
      }
      i := i + 1;
    }
    if i == |sorted| {
      assert sorted[..i] == sorted;
    }
  }

  /** The folder scan, for any list of folders: at most two found toolsets or
      one excluded one, never both; the second found toolset is the first one
      retagged v140 with -vcvars_ver=14.0 and appears exactly when v140 is
      available; only dumpbin paths up to the first folder holding dumpbin.exe
      are examined, and that dumpbin.exe is the one every toolset uses. */
  lemma ScanToolchainsYield(fs: FileSystem, root: Path, vcvarsall: Path, archs: seq<ToolsetArchOption>,
                            subdirs: seq<Path>, v140Available: bool)
    ensures var p := ScanToolchains(fs, root, vcvarsall, archs, subdirs, v140Available);
      var k := FirstWithDumpbin(fs, subdirs);
      && !p.stopped
      && |p.found| <= 2 && |p.excluded| <= 1
      && (p.found == [] || p.excluded == [])
      && (|p.found| == 2 <==> p.found != [] && v140Available)
      && (forall t :: t in p.found + p.excluded ==>
            t.visualStudioRoot == root && t.vcvarsall == vcvarsall && t.supportedArchitectures == archs)
      && (p.found != [] ==> p.found[0].version == V141 && p.found[0].vcvarsallOptions == [])
      && (p.excluded != [] ==> p.excluded[0].version == V141 && p.excluded[0].vcvarsallOptions == [])
      && (|p.found| == 2 ==>
            p.found[1] == p.found[0].(vcvarsallOptions := ["-vcvars_ver=14.0"], version := V140))
      && (k < |subdirs| ==>
            && p.examined == DumpbinPaths(subdirs[..k + 1])
            && p.found + p.excluded != []
            && (p.excluded != [] <==> !Exists(fs, LanguagePack(ModernDumpbin(subdirs[k]))))
            && forall t :: t in p.found + p.excluded ==> t.dumpbin == ModernDumpbin(subdirs[k]))
      && (k == |subdirs| ==> p == Progress([], [], DumpbinPaths(subdirs), false))
  {
    var k := FirstWithDumpbin(fs, subdirs);
    if k < |subdirs| {
      var dumpbin := ModernDumpbin(subdirs[k]);
      var p := ScanToolchains(fs, root, vcvarsall, archs, subdirs, v140Available);
      assert p.examined == DumpbinPaths(subdirs[..k + 1]);
      assert forall t :: t in p.found + p.excluded ==> t.dumpbin == dumpbin;
    }
  }

  /** In folders sorted by descending name, the first folder holding
      dumpbin.exe is the latest such folder: no folder with a greater name
      holds one. */
  lemma {:induction false} FirstWithDumpbinIsLatest(fs: FileSystem, subdirs: seq<Path>, d: Path)
    requires forall i, j :: 0 <= i < j < |subdirs| ==> !LexLess(Filename(subdirs[i]), Filename(subdirs[j]))
    requires FirstWithDumpbin(fs, subdirs) < |subdirs| && d in subdirs
    requires LexLess(Filename(subdirs[FirstWithDumpbin(fs, subdirs)]), Filename(d))
    ensures !Exists(fs, ModernDumpbin(d))
  {
    var k := FirstWithDumpbin(fs, subdirs);
    var j :| 0 <= j < |subdirs| && subdirs[j] == d;
    LexLessIrreflexive(Filename(d));
    assert j < k;
  }

  /** What a VS2017 ("15") instance adds. It never stops the loop. Without
      vcvarsall.bat only that path is examined. Otherwise the directories of
      VC\Tools\MSVC are scanned in descending name order. The first one holding
      dumpbin.exe decides: no folder with a greater name holds one, and only the
      dumpbin paths up to it are examined. That folder gives a v141 toolset,
      plus the same toolset retagged v140 with -vcvars_ver=14.0 when v140 is
      available, or one excluded v141 toolset when its language pack is missing. */
  lemma ModernInstanceYield(fs: FileSystem, inst: Instance, v140Available: bool)
    requires MajorVersion(inst) == "15"
    ensures var p := Visit(fs, inst, v140Available);
      var vcvarsall := ModernVcvarsall(inst.root);
      var subdirs := MsvcSubdirectories(fs, inst.root);
      var k := FirstWithDumpbin(fs, subdirs);
      && !p.stopped
      && p.examined != [] && p.examined[0] == vcvarsall
      && (!Exists(fs, vcvarsall) ==> p == Progress([], [], [vcvarsall], false))
      && (Exists(fs, vcvarsall) ==>
            && |p.found| <= 2 && |p.excluded| <= 1
            && (p.found == [] || p.excluded == [])
            && (p.found + p.excluded != [] <==> k < |subdirs|)
            && (|p.found| == 2 <==> p.found != [] && v140Available)
            && (p.found != [] ==> p.found[0].version == V141 && p.found[0].vcvarsallOptions == [])
            && (|p.found| == 2 ==>
                  p.found[1] == p.found[0].(vcvarsallOptions := ["-vcvars_ver=14.0"], version := V140))
            && (p.excluded != [] ==> p.excluded[0].version == V141)
            && (k < |subdirs| ==>
                  && p.examined == [vcvarsall] + DumpbinPaths(subdirs[..k + 1])
                  && (p.excluded != [] <==> !Exists(fs, LanguagePack(ModernDumpbin(subdirs[k]))))
                  && (forall t :: t in p.found + p.excluded ==>
                        t.dumpbin == ModernDumpbin(subdirs[k]) && t.vcvarsall == vcvarsall &&
                        t.visualStudioRoot == inst.root &&
                        t.supportedArchitectures ==
                          SupportedArchitectures(fs, ModernVcvarsallDir(inst.root), MODERN_ARCH_MENU))
                  && (forall d ::
                        (d in ListChildren(fs, MsvcDir(inst.root)) && IsDirectory(fs, d) &&
                         LexLess(Filename(subdirs[k]), Filename(d))) ==> !Exists(fs, ModernDumpbin(d))))
            && (k == |subdirs| ==> p.examined == [vcvarsall] + DumpbinPaths(subdirs)))
  {
    var vcvarsall := ModernVcvarsall(inst.root);
    var subdirs := MsvcSubdirectories(fs, inst.root);
    var p := Visit(fs, inst, v140Available);
    assert p == VisitModern(fs, inst, v140Available);
    if Exists(fs, vcvarsall) {
      var archs := SupportedArchitectures(fs, ModernVcvarsallDir(inst.root), MODERN_ARCH_MENU);
      var scan := ScanToolchains(fs, inst.root, vcvarsall, archs, subdirs, v140Available);
      assert p == Progress(scan.found, scan.excluded, [vcvarsall] + scan.examined, false);
      ScanToolchainsYield(fs, inst.root, vcvarsall, archs, subdirs, v140Available);
      MsvcSubdirectoriesSpec(fs, inst.root);
      var k := FirstWithDumpbin(fs, subdirs);
      if k < |subdirs| {
        forall d | d in ListChildren(fs, MsvcDir(inst.root)) && IsDirectory(fs, d) &&
                   LexLess(Filename(subdirs[k]), Filename(d))
          ensures !Exists(fs, ModernDumpbin(d))
        {
          FirstWithDumpbinIsLatest(fs, subdirs, d);
        }
      }
    }
  }

  /** A VS2015 ("14") or VS2013 ("12") instance: without vcvarsall.bat it is
      skipped and the loop goes on; otherwise its dumpbin.exe is probed too. It
      stops the loop exactly when dumpbin.exe exists and the language pack does
      not, leaving one excluded toolset; it finds its toolset exactly when
      vcvarsall.bat, dumpbin.exe and the language pack all exist. Its toolset
      uses those two paths and is tagged v140 or v120. */
  lemma LegacyInstanceOutcome(fs: FileSystem, inst: Instance)
    requires MajorVersion(inst) == "14" || MajorVersion(inst) == "12"
    ensures var p := Visit(fs, inst, false);
      var vcvarsall := LegacyVcvarsall(inst.root);
      var dumpbin := LegacyDumpbin(inst.root);
      && Visit(fs, inst, true) == p
      && (!Exists(fs, vcvarsall) ==> p == Progress([], [], [vcvarsall], false))
      && (Exists(fs, vcvarsall) ==> p.examined == [vcvarsall, dumpbin])
      && (p.stopped <==> Exists(fs, vcvarsall) && Exists(fs, dumpbin) && !Exists(fs, LanguagePack(dumpbin)))
      && (p.stopped ==> p.found == [] && |p.excluded| == 1)
      && (!p.stopped ==> p.excluded == [] && |p.found| <= 1)
      && (|p.found| == 1 <==> Exists(fs, vcvarsall) && Exists(fs, dumpbin) && Exists(fs, LanguagePack(dumpbin)))
      && (forall t :: t in p.found + p.excluded ==>
            && t.visualStudioRoot == inst.root && t.dumpbin == dumpbin && t.vcvarsall == vcvarsall
            && t.version == (if MajorVersion(inst) == "14" then V140 else V120)
            && t.vcvarsallOptions == []
            && t.supportedArchitectures == SupportedArchitectures(fs, LegacyBinDir(inst.root), LEGACY_ARCH_MENU))
  {
  }

  /** Instances whose major version is not "15", "14" or "12" contribute nothing. */
  lemma OtherMajorVersionsContributeNothing(fs: FileSystem, inst: Instance, v140Available: bool)
    requires MajorVersion(inst) != "15" && MajorVersion(inst) != "14" && MajorVersion(inst) != "12"
    ensures Visit(fs, inst, v140Available) == Progress([], [], [], false)
  {
  }

  /** The toolsets of a folder scan use the given vcvarsall.bat and an existing
      dumpbin.exe; the found ones have the language pack, the excluded one does not. */
  lemma ScanToolsetsComplete(fs: FileSystem, root: Path, vcvarsall: Path, archs: seq<ToolsetArchOption>,
                             subdirs: seq<Path>, v140Available: bool)
    requires Exists(fs, vcvarsall)
    ensures var p := ScanToolchains(fs, root, vcvarsall, archs, subdirs, v140Available);
      && (forall t :: t in p.found ==> IsComplete(fs, t) && t.visualStudioRoot == root)
      && (forall t :: t in p.excluded ==>
            && Exists(fs, t.vcvarsall) && Exists(fs, t.dumpbin) && !Exists(fs, LanguagePack(t.dumpbin))
            && t.visualStudioRoot == root)
  {
    var k := FirstWithDumpbin(fs, subdirs);
    if k < |subdirs| {
      assert Exists(fs, ModernDumpbin(subdirs[k]));
    }
  }

  /** What one instance adds is complete when found, and lacks only its
      language pack when excluded; either way it belongs to that instance. */
  lemma VisitToolsetsComplete(fs: FileSystem, inst: Instance, v140Available: bool)
    ensures var p := Visit(fs, inst, v140Available);
      && (forall t :: t in p.found ==> IsComplete(fs, t) && t.visualStudioRoot == inst.root)
      && (forall t :: t in p.excluded ==>
            && Exists(fs, t.vcvarsall) && Exists(fs, t.dumpbin) && !Exists(fs, LanguagePack(t.dumpbin))
            && t.visualStudioRoot == inst.root)
  {
    var major := MajorVersion(inst);
    if major == "15" {
      var vcvarsall := ModernVcvarsall(inst.root);
      assert Visit(fs, inst, v140Available) == VisitModern(fs, inst, v140Available);
      if Exists(fs, vcvarsall) {
        var archs := SupportedArchitectures(fs, ModernVcvarsallDir(inst.root), MODERN_ARCH_MENU);
        ScanToolsetsComplete(fs, inst.root, vcvarsall, archs, MsvcSubdirectories(fs, inst.root), v140Available);
      }
    } else if major == "14" || major == "12" {
      assert Visit(fs, inst, v140Available) == VisitLegacy(fs, inst);
    }
  }

  /** Every found toolset has vcvarsall.bat, dumpbin.exe and the English
      language pack beside dumpbin.exe; a missing language pack sends a toolset
      to the excluded list, never to the found list. */
  lemma {:induction false} ResolvedToolsetsComplete(fs: FileSystem, sorted: seq<Instance>, v140Available: bool)
    ensures var p := Resolve(fs, sorted, v140Available);
      && (forall t :: t in p.found ==> IsComplete(fs, t))
      && (forall t :: t in p.excluded ==>
            Exists(fs, t.vcvarsall) && Exists(fs, t.dumpbin) && !Exists(fs, LanguagePack(t.dumpbin)))
    decreases |sorted|
  {
    if sorted != [] {
      var prefix := sorted[..|sorted| - 1];
      ResolvedToolsetsComplete(fs, prefix, v140Available);
      VisitToolsetsComplete(fs, sorted[|sorted| - 1], v140Available);
    }
  }

  /** Resolving a prefix gives a prefix of every output list. */
  lemma {:induction false} ResolveExtends(fs: FileSystem, sorted: seq<Instance>, k: nat, v140Available: bool)
    requires k <= |sorted|
    ensures var whole := Resolve(fs, sorted, v140Available);
      var part := Resolve(fs, sorted[..k], v140Available);
      && part.found <= whole.found && part.excluded <= whole.excluded && part.examined <= whole.examined
    decreases |sorted|
  {
    if k < |sorted| {
      var prefix := sorted[..|sorted| - 1];
      assert prefix[..k] == sorted[..k];
      ResolveExtends(fs, prefix, k, v140Available);
    } else {
      assert sorted[..k] == sorted;
    }
  }

  /** Every "15", "14" or "12" instance the loop reaches has its vcvarsall.bat
      path recorded as examined, whether or not that file exists. */
  lemma ExaminedRecordsEveryVisitedVcvarsall(fs: FileSystem, sorted: seq<Instance>, k: nat, v140Available: bool)
    requires k < |sorted| && !Resolve(fs, sorted[..k], v140Available).stopped
    requires MajorVersion(sorted[k]) in {"15", "14", "12"}
    ensures VcvarsallOf(sorted[k]) in Resolve(fs, sorted, v140Available).examined
  {
    ResolveStep(fs, sorted, k, v140Available);
    ResolveExtends(fs, sorted, k + 1, v140Available);
    var step := Visit(fs, sorted[k], v140Available);
    if MajorVersion(sorted[k]) == "15" {
      assert step == VisitModern(fs, sorted[k], v140Available);
    } else {
      LegacyInstanceOutcome(fs, sorted[k]);
    }
    var part := Resolve(fs, sorted[..k + 1], v140Available);
    assert part.examined[|Resolve(fs, sorted[..k], v140Available).examined|] == VcvarsallOf(sorted[k]);
  }

  /** The visit of a legacy instance whose dumpbin.exe lacks its language pack. */
  lemma LegacyExclusionStops(fs: FileSystem, inst: Instance, v140Available: bool)
    requires MajorVersion(inst) in {"14", "12"}
    requires Exists(fs, LegacyVcvarsall(inst.root)) && Exists(fs, LegacyDumpbin(inst.root))
    requires !Exists(fs, LanguagePack(LegacyDumpbin(inst.root)))
    ensures var step := Visit(fs, inst, v140Available);
      step.stopped && step.found == [] && |step.excluded| == 1
  {
    assert Visit(fs, inst, v140Available) == VisitLegacy(fs, inst);
  }

  /** A legacy exclusion ends the loop: the result is the prefix up to and
      including that instance, so no later instance contributes anything, and
      that instance adds exactly one excluded toolset and no found one. */
  lemma LegacyExclusionEndsResolution(fs: FileSystem, sorted: seq<Instance>, k: nat, v140Available: bool)
    requires k < |sorted| && !Resolve(fs, sorted[..k], v140Available).stopped
    requires MajorVersion(sorted[k]) in {"14", "12"}
    requires Exists(fs, LegacyVcvarsall(sorted[k].root)) && Exists(fs, LegacyDumpbin(sorted[k].root))
    requires !Exists(fs, LanguagePack(LegacyDumpbin(sorted[k].root)))
    ensures var before := Resolve(fs, sorted[..k], v140Available);
      var whole := Resolve(fs, sorted, v140Available);
      && whole == Resolve(fs, sorted[..k + 1], v140Available)
      && whole.stopped
      && whole.found == before.found
      && |whole.excluded| == |before.excluded| + 1
  {
    LegacyExclusionStops(fs, sorted[k], v140Available);
    ResolveStep(fs, sorted, k, v140Available);
    var step := Visit(fs, sorted[k], v140Available);
    assert Resolve(fs, sorted[..k + 1], v140Available) == Then(Resolve(fs, sorted[..k], v140Available), step);
    StoppedIsFinal(fs, sorted, k + 1, v140Available);
  }
}
