/** get_visual_studio_instances: the candidates reported by vswhere, then the
    VS2015 installations found through the vs140comntools variable and under
    Program Files. */
module Enumeration {
  import opened Wrappers
  import opened FileSystems
  import opened Instances
  import Toolsets

  /** One <instance> record of vswhere's XML output, with the enclosed texts
      already extracted (find_at_most_one_enclosed / find_exactly_one_enclosed). */
  datatype VsWhereRecord = VsWhereRecord(
    isPrerelease: Option<string>,
    installationPath: Path,
    installationVersion: string)

  /** What running vswhere.exe would return: its exit code, its captured output
      and the records parsed from that output. */
  datatype VsWhereRun = VsWhereRun(exitCode: int, output: string, records: seq<VsWhereRecord>)

  /** Everything discovery reads from the machine. */
  datatype Host = Host(
    fs: FileSystem,
    programFiles32: Option<Path>,
    vswhere: VsWhereRun,
    vs140comntools: Option<Path>)

  function VsWhereExe(programFiles32: Path): Path {
    programFiles32 + ["Microsoft Visual Studio", "Installer", "vswhere.exe"]
  }

  function LegacyClExe(root: Path): Path {
    root + ["VC", "bin", "cl.exe"]
  }

  function LegacyRootVcvarsall(root: Path): Path {
    root + ["VC", "vcvarsall.bat"]
  }

  /** The release type of a vswhere record: no flag means legacy, "0" stable,
      "1" prerelease; any other text is a broken invariant, never a default. */
  function ReleaseTypeOf(isPrerelease: Option<string>): (r: Result<ReleaseType>)
    ensures r == Ok(Legacy) <==> isPrerelease == None
    ensures r == Ok(Stable) <==> isPrerelease == Some("0")
    ensures r == Ok(Prerelease) <==> isPrerelease == Some("1")
    ensures r.Err? <==> isPrerelease.Some? && isPrerelease.value != "0" && isPrerelease.value != "1"
    ensures r.Err? ==> r.error == Unreachable
  {
    match isPrerelease
    case None => Ok(Legacy)
    case Some(s) =>
      if s == "0" then Ok(Stable)
      else if s == "1" then Ok(Prerelease)
      else Err(Unreachable)
  }

  /** The instances of the vswhere records seen so far, in record order; the
      first record with a bad flag aborts. Defined on the last record so that
      it follows the loop at lines 77-100 step by step. */
  function InstancesFromVsWhere(records: seq<VsWhereRecord>): Result<seq<Instance>>
    decreases |records|
  {
    if records == [] then Ok([])
    else
      var last := records[|records| - 1];
      match InstancesFromVsWhere(records[..|records| - 1])
      case Err(e) => Err(e)
      case Ok(xs) =>
        match ReleaseTypeOf(last.isPrerelease)
        case Err(e) => Err(e)
        case Ok(t) => Ok(xs + [Instance(last.installationPath, last.installationVersion, t)])
  }

  /** The vswhere records yield instances exactly when every flag is valid, one
      instance per record, carrying its path, its version and its mapped release type. */
  lemma {:induction false} InstancesFromVsWhereSpec(records: seq<VsWhereRecord>)
    ensures InstancesFromVsWhere(records).Ok? <==>
              forall i :: 0 <= i < |records| ==> ReleaseTypeOf(records[i].isPrerelease).Ok?
    ensures InstancesFromVsWhere(records).Err? ==> InstancesFromVsWhere(records).error == Unreachable
    ensures InstancesFromVsWhere(records).Ok? ==>
              var xs := InstancesFromVsWhere(records).value;
              && |xs| == |records|
              && forall i :: 0 <= i < |records| ==>
                   xs[i] == Instance(records[i].installationPath, records[i].installationVersion,
                                     ReleaseTypeOf(records[i].isPrerelease).value)
    decreases |records|
  {
    if records != [] {
      var prefix := records[..|records| - 1];
      InstancesFromVsWhereSpec(prefix);
      assert forall i :: 0 <= i < |prefix| ==> prefix[i] == records[i];
    }
  }

  /** append_if_has_cl: a legacy "14.0" instance at root, only when both
      VC/bin/cl.exe and VC/vcvarsall.bat exist under it. */
  function AppendIfHasCl(fs: FileSystem, root: Path): (r: seq<Instance>)
    ensures |r| <= 1
    ensures r != [] <==> Exists(fs, LegacyClExe(root)) && Exists(fs, LegacyRootVcvarsall(root))
    ensures r != [] ==> r[0] == Instance(root, "14.0", Legacy)
  {
    if Exists(fs, LegacyClExe(root)) && Exists(fs, LegacyRootVcvarsall(root)) then
      [Instance(root, "14.0", Legacy)]
    else
      []
  }

  /** The roots probed for VS2015, in probing order: two and three levels above
      the vs140comntools directory (the variable may end in a separator), then
      the default install folder. */
  function LegacyProbeRoots(vs140comntools: Option<Path>, programFiles32: Path): (roots: seq<Path>)
    ensures |roots| == if vs140comntools.Some? then 3 else 1
    ensures vs140comntools.Some? ==>
              && roots[0] == Parent(Parent(vs140comntools.value))
              && roots[1] == Parent(Parent(Parent(vs140comntools.value)))
    ensures roots[|roots| - 1] == programFiles32 + ["Microsoft Visual Studio 14.0"]
  {
    var default := programFiles32 + ["Microsoft Visual Studio 14.0"];
    if vs140comntools.None? then [default]
    else [Parent(Parent(vs140comntools.value)), Parent(Parent(Parent(vs140comntools.value))), default]
  }

  /** The roots of a sequence of instances, in order. */
  function InstanceRoots(instances: seq<Instance>): (roots: seq<Path>)
    ensures |roots| == |instances|
    ensures forall i :: 0 <= i < |instances| ==> roots[i] == instances[i].root
  {
    seq(|instances|, i requires 0 <= i < |instances| => instances[i].root)
  }

  /** append_if_has_cl applied to each root in turn: only legacy "14.0"
      instances at probed roots holding both cl.exe and vcvarsall.bat. */
  function ProbeLegacyRoots(fs: FileSystem, roots: seq<Path>): (r: seq<Instance>)
    ensures |r| <= |roots|
    ensures forall inst :: inst in r ==>
              && inst.releaseType == Legacy && inst.version == "14.0" && inst.root in roots
              && Exists(fs, LegacyClExe(inst.root)) && Exists(fs, LegacyRootVcvarsall(inst.root))
    decreases |roots|
  {
    if roots == [] then []
    else
      var here := AppendIfHasCl(fs, roots[0]);
      var rest := ProbeLegacyRoots(fs, roots[1..]);
      assert forall root :: root in roots[1..] ==> root in roots;
      assert forall inst :: inst in here + rest ==> inst in here || inst in rest;
      here + rest
  }

  /** Probing misses nothing: every root holding cl.exe and vcvarsall.bat
      yields its instance. */
  lemma {:induction false} ProbeLegacyRootsFindsAll(fs: FileSystem, roots: seq<Path>)
    ensures forall root :: root in roots && Exists(fs, LegacyClExe(root)) && Exists(fs, LegacyRootVcvarsall(root)) ==>
              Instance(root, "14.0", Legacy) in ProbeLegacyRoots(fs, roots)
    decreases |roots|
  {
    if roots != [] {
      ProbeLegacyRootsFindsAll(fs, roots[1..]);
      assert ProbeLegacyRoots(fs, roots) == AppendIfHasCl(fs, roots[0]) + ProbeLegacyRoots(fs, roots[1..]);
      assert forall root :: root in roots ==> root == roots[0] || root in roots[1..];
    }
  }

  /** Probing keeps order: the instances' roots appear in the order of the
      probed roots. */
  lemma {:induction false} ProbeLegacyRootsKeepsOrder(fs: FileSystem, roots: seq<Path>)
    ensures Toolsets.IsSubsequence(InstanceRoots(ProbeLegacyRoots(fs, roots)), roots)
    decreases |roots|
  {
    if roots != [] {
      var here := AppendIfHasCl(fs, roots[0]);
      var rest := ProbeLegacyRoots(fs, roots[1..]);
      ProbeLegacyRootsKeepsOrder(fs, roots[1..]);
      assert ProbeLegacyRoots(fs, roots) == here + rest;
      if here == [] {
        assert here + rest == rest;
      } else {
        var a := InstanceRoots(here + rest);
        assert a[0] == roots[0];
        assert a[1..] == InstanceRoots(rest);
      }
    }
  }

  /** The legacy instances found at the probe roots, in probing order: every
      probe root that holds cl.exe and vcvarsall.bat, and no other. */
  function LegacyInstances(fs: FileSystem, vs140comntools: Option<Path>, programFiles32: Path): (r: seq<Instance>)
    ensures |r| <= |LegacyProbeRoots(vs140comntools, programFiles32)|
    ensures forall inst :: inst in r ==>
              && inst.releaseType == Legacy && inst.version == "14.0"
              && inst.root in LegacyProbeRoots(vs140comntools, programFiles32)
              && Exists(fs, LegacyClExe(inst.root)) && Exists(fs, LegacyRootVcvarsall(inst.root))
    ensures forall root ::
              (root in LegacyProbeRoots(vs140comntools, programFiles32) &&
               Exists(fs, LegacyClExe(root)) && Exists(fs, LegacyRootVcvarsall(root))) ==>
              Instance(root, "14.0", Legacy) in r
    ensures Toolsets.IsSubsequence(InstanceRoots(r), LegacyProbeRoots(vs140comntools, programFiles32))
  {
    ProbeLegacyRootsFindsAll(fs, LegacyProbeRoots(vs140comntools, programFiles32));
    ProbeLegacyRootsKeepsOrder(fs, LegacyProbeRoots(vs140comntools, programFiles32));
    ProbeLegacyRoots(fs, LegacyProbeRoots(vs140comntools, programFiles32))
  }

  /** Probing three roots probes them one after the other. */
  lemma ProbeThreeRoots(fs: FileSystem, first: Path, second: Path, third: Path)
    ensures ProbeLegacyRoots(fs, [first, second, third]) ==
            AppendIfHasCl(fs, first) + AppendIfHasCl(fs, second) + AppendIfHasCl(fs, third)
  {
    assert [first, second, third][1..] == [second, third];
    assert [second, third][1..] == [third];
    assert [third][1..] == [];
    var last := AppendIfHasCl(fs, third);
    assert ProbeLegacyRoots(fs, [third]) == last;
    assert ProbeLegacyRoots(fs, [second, third]) == AppendIfHasCl(fs, second) + last;
    assert ProbeLegacyRoots(fs, [first, second, third]) ==
           AppendIfHasCl(fs, first) + (AppendIfHasCl(fs, second) + last);
  }

  /** The probes one after the other, as lines 111-123 make them. */
  lemma LegacyInstancesInOrder(fs: FileSystem, vs140comntools: Option<Path>, programFiles32: Path)
    ensures var fromDefault := AppendIfHasCl(fs, programFiles32 + ["Microsoft Visual Studio 14.0"]);
      LegacyInstances(fs, vs140comntools, programFiles32) ==
        match vs140comntools
        case None => fromDefault
        case Some(tools) =>
          AppendIfHasCl(fs, Parent(Parent(tools))) + AppendIfHasCl(fs, Parent(Parent(Parent(tools)))) + fromDefault
  {
    var default := programFiles32 + ["Microsoft Visual Studio 14.0"];
    match vs140comntools {
      case None =>
        assert LegacyProbeRoots(vs140comntools, programFiles32) == [default];
        assert [default][1..] == [];
      case Some(tools) =>
        var twoUp, threeUp := Parent(Parent(tools)), Parent(Parent(Parent(tools)));
        assert LegacyProbeRoots(vs140comntools, programFiles32) == [twoUp, threeUp, default];
        ProbeThreeRoots(fs, twoUp, threeUp, default);
    }
  }

  /** The outcome of get_visual_studio_instances: without Program Files it is
      fatal; otherwise vswhere's instances, when vswhere.exe is present and
      succeeds, come first and the legacy probes last; the probes are all there
      is when vswhere.exe is absent. */
  function EnumerateInstances(host: Host): (r: Result<seq<Instance>>)
    ensures host.programFiles32.None? ==> r == Err(ProgramFilesUnavailable)
    ensures r.Ok? ==>
              && host.programFiles32.Some?
              && var legacy := LegacyInstances(host.fs, host.vs140comntools, host.programFiles32.value);
                 |legacy| <= |r.value| && r.value[|r.value| - |legacy|..] == legacy
    ensures host.programFiles32.Some? && !Exists(host.fs, VsWhereExe(host.programFiles32.value)) ==>
              r == Ok(LegacyInstances(host.fs, host.vs140comntools, host.programFiles32.value))
    ensures host.programFiles32.Some? && Exists(host.fs, VsWhereExe(host.programFiles32.value)) &&
            host.vswhere.exitCode == 0 && InstancesFromVsWhere(host.vswhere.records).Ok? ==>
              r == Ok(InstancesFromVsWhere(host.vswhere.records).value +
                      LegacyInstances(host.fs, host.vs140comntools, host.programFiles32.value))
  {
    match host.programFiles32
    case None => Err(ProgramFilesUnavailable)
    case Some(programFiles32) =>
      var fromVsWhere :=
        if !Exists(host.fs, VsWhereExe(programFiles32)) then Ok([])
        else if host.vswhere.exitCode != 0 then Err(VsWhereFailed(host.vswhere.output))
        else InstancesFromVsWhere(host.vswhere.records);
      match fromVsWhere
      case Err(e) => Err(e)
      case Ok(xs) => Ok(xs + LegacyInstances(host.fs, host.vs140comntools, programFiles32))
  }

  /** The loop over vswhere's records (lines 77-100): one instance appended per
      record; a flag outside {"0", "1"} aborts. */
  method ReadVsWhereInstances(records: seq<VsWhereRecord>) returns (r: Result<seq<Instance>>)
    ensures r == InstancesFromVsWhere(records)
  {
    var instances: seq<Instance> := [];
    var i := 0;
    while i < |records|
      invariant 0 <= i <= |records|
      invariant InstancesFromVsWhere(records[..i]) == Ok(instances)
    {
      var record := records[i];
      var releaseType := Legacy;
      if record.isPrerelease.Some? {
        var s := record.isPrerelease.value;
        if s == "0" {
          releaseType := Stable;
        } else if s == "1" {
          releaseType := Prerelease;
        } else {
          InstancesFromVsWhereSpec(records);
          assert ReleaseTypeOf(records[i].isPrerelease).Err?;
          return Err(Unreachable);
        }
      }
      instances := instances + [Instance(record.installationPath, record.installationVersion, releaseType)];
      assert records[..i + 1][..i] == records[..i];
      i := i + 1;
    }
    assert records[..i] == records;
    return Ok(instances);
  }

  /** get_visual_studio_instances: vswhere's instances first, then the VS2015
      candidates that pass append_if_has_cl. */
  method GetVisualStudioInstances(host: Host) returns (r: Result<seq<Instance>>)
    ensures r == EnumerateInstances(host)
  {
    if host.programFiles32.None? {
      return Err(ProgramFilesUnavailable);
    }
    var programFiles32 := host.programFiles32.value;
    var instances: seq<Instance> := [];

    if Exists(host.fs, VsWhereExe(programFiles32)) {
      if host.vswhere.exitCode != 0 {
        return Err(VsWhereFailed(host.vswhere.output));
      }
      var fromVsWhere := ReadVsWhereInstances(host.vswhere.records);
      if fromVsWhere.Err? {
        return Err(fromVsWhere.error);
      }
      instances := fromVsWhere.value;
    }
    ghost var fromVsWhere := instances;
    assert EnumerateInstances(host) == Ok(fromVsWhere + LegacyInstances(host.fs, host.vs140comntools, programFiles32));

    var probed: seq<Instance> := [];
    if host.vs140comntools.Some? {
      var tools := host.vs140comntools.value;
      probed := AppendIfHasCl(host.fs, Parent(Parent(tools)));
      probed := probed + AppendIfHasCl(host.fs, Parent(Parent(Parent(tools))));
    }
    probed := probed + AppendIfHasCl(host.fs, programFiles32 + ["Microsoft Visual Studio 14.0"]);
    LegacyInstancesInOrder(host.fs, host.vs140comntools, programFiles32);
    assert probed == LegacyInstances(host.fs, host.vs140comntools, programFiles32);
    instances := instances + probed;
    return Ok(instances);
  }

  /** Where every enumerated instance comes from: either a vswhere record, with
      the release type its flag maps to, or a legacy probe root holding both
      cl.exe and vcvarsall.bat, as a legacy "14.0" instance. */
  lemma EnumeratedInstanceOrigins(host: Host, inst: Instance)
    requires EnumerateInstances(host).Ok? && inst in EnumerateInstances(host).value
    ensures
      || (exists rec :: rec in host.vswhere.records &&
            ReleaseTypeOf(rec.isPrerelease) == Ok(inst.releaseType) &&
            inst.root == rec.installationPath && inst.version == rec.installationVersion)
      || (inst.releaseType == Legacy && inst.version == "14.0" &&
            Exists(host.fs, LegacyClExe(inst.root)) && Exists(host.fs, LegacyRootVcvarsall(inst.root)))
  {
    var programFiles32 := host.programFiles32.value;
    var legacy := LegacyInstances(host.fs, host.vs140comntools, programFiles32);
    if inst !in legacy {
      var records := host.vswhere.records;
      InstancesFromVsWhereSpec(records);
      var xs := InstancesFromVsWhere(records).value;
      assert inst in xs;
      var i :| 0 <= i < |xs| && xs[i] == inst;
      assert records[i] in records;
    }
  }

  /** Enumeration fails only when Program Files is unknown, or when vswhere.exe
      is present and either exits non-zero or reports a flag outside {"0", "1"}. */
  lemma EnumerationFailures(host: Host)
    ensures EnumerateInstances(host).Err? <==>
      || host.programFiles32.None?
      || (Exists(host.fs, VsWhereExe(host.programFiles32.value)) &&
          (host.vswhere.exitCode != 0 ||
           exists i :: 0 <= i < |host.vswhere.records| &&
             ReleaseTypeOf(host.vswhere.records[i].isPrerelease).Err?))
  {
    InstancesFromVsWhereSpec(host.vswhere.records);
  }
}
