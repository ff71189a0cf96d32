/** find_toolset_instances_preferred_first: enumerate, rank, resolve, report. */
module Discovery {
  import opened Wrappers
  import opened FileSystems
  import opened Instances
  import opened Enumeration
  import opened Toolsets
  import opened Resolution

  /** The loop's results after ranking the enumerated instances; v140 counts as
      available when any ranked instance has major version "14". */
  function ResolveEnumerated(fs: FileSystem, instances: seq<Instance>): Progress {
    var sorted := RankInstances(instances);
    Resolve(fs, sorted, AnyMajor14(sorted))
  }

  /** The outcome (lines 288-299): no found toolset is a failure that carries
      every examined path; otherwise the found toolsets, in the order found. */
  function Conclude(p: Progress): (r: Result<seq<Toolset>>)
    ensures r.Ok? <==> p.found != []
    ensures r.Ok? ==> r.value == p.found
    ensures r.Err? ==> r.error == NoCompleteToolset(p.examined)
  {
    if p.found == [] then Err(NoCompleteToolset(p.examined)) else Ok(p.found)
  }

  /** The roots listed in the exclusion warning (lines 276-286), in order. */
  function ExclusionWarning(excluded: seq<Toolset>): (roots: seq<Path>)
    ensures |roots| == |excluded|
    ensures forall i :: 0 <= i < |roots| ==> roots[i] == excluded[i].visualStudioRoot
  {
    seq(|excluded|, i requires 0 <= i < |excluded| => excluded[i].visualStudioRoot)
  }

  /** The warning loop (lines 281-284): one line per excluded toolset's root. */
  method WarnExcluded(excluded: seq<Toolset>) returns (warning: seq<Path>)
    ensures warning == ExclusionWarning(excluded)
  {
    warning := [];
    var i := 0;
    while i < |excluded|
      invariant 0 <= i <= |excluded|
      invariant |warning| == i
      invariant forall j :: 0 <= j < i ==> warning[j] == excluded[j].visualStudioRoot
    {
      warning := warning + [excluded[i].visualStudioRoot];
      i := i + 1;
    }
  }

  /** The whole discovery as a function of the machine. */
  function FindToolsets(host: Host): Result<seq<Toolset>> {
    match EnumerateInstances(host)
    case Err(e) => Err(e)
    case Ok(instances) => Conclude(ResolveEnumerated(host.fs, instances))
  }

  /** find_toolset_instances_preferred_first. `warning` holds the roots of the
      excluded toolsets; the warning is given even when nothing was found. */
  method FindToolsetInstancesPreferredFirst(host: Host) returns (r: Result<seq<Toolset>>, warning: seq<Path>)
    ensures r == FindToolsets(host)
    ensures EnumerateInstances(host).Ok? ==>
              warning == ExclusionWarning(ResolveEnumerated(host.fs, EnumerateInstances(host).value).excluded)
    ensures EnumerateInstances(host).Err? ==> warning == []
  {
    var enumerated := GetVisualStudioInstances(host);
    if enumerated.Err? {
      return Err(enumerated.error), [];
    }
    var sorted := RankInstances(enumerated.value);
    var v140Available := AnyMajor14(sorted);
    var found, excluded, examined := ResolveRanked(host.fs, sorted, v140Available);
    assert ResolveEnumerated(host.fs, enumerated.value) == Resolve(host.fs, sorted, v140Available);

    warning := WarnExcluded(excluded);

    if found == [] {
      return Err(NoCompleteToolset(examined)), warning;
    }
    return Ok(found), warning;
  }

  /** A successful discovery returns a non-empty list of complete toolsets:
      each has vcvarsall.bat, dumpbin.exe and the English language pack. */
  lemma FoundToolsetsAreComplete(host: Host)
    requires FindToolsets(host).Ok?
    ensures FindToolsets(host).value != []
    ensures forall t :: t in FindToolsets(host).value ==> IsComplete(host.fs, t)
  {
    var instances := EnumerateInstances(host).value;
    var sorted := RankInstances(instances);
    ResolvedToolsetsComplete(host.fs, sorted, AnyMajor14(sorted));
  }

  /** Discovery fails for want of a toolset exactly when enumeration succeeded
      and the loop found nothing; the failure lists every examined path. */
  lemma NothingFoundIsFatal(host: Host)
    ensures (FindToolsets(host).Err? && FindToolsets(host).error.NoCompleteToolset?) <==>
            (EnumerateInstances(host).Ok? && ResolveEnumerated(host.fs, EnumerateInstances(host).value).found == [])
    ensures EnumerateInstances(host).Ok? && FindToolsets(host).Err? ==>
            FindToolsets(host).error ==
              NoCompleteToolset(ResolveEnumerated(host.fs, EnumerateInstances(host).value).examined)
  {
    if EnumerateInstances(host).Err? {
      EnumerationErrorsAreNotNoToolset(host);
    }
  }

  lemma EnumerationErrorsAreNotNoToolset(host: Host)
    requires EnumerateInstances(host).Err?
    ensures !EnumerateInstances(host).error.NoCompleteToolset?
  {
    if host.programFiles32.Some? && Exists(host.fs, VsWhereExe(host.programFiles32.value))
       && host.vswhere.exitCode == 0 {
      InstancesFromVsWhereSpec(host.vswhere.records);
    }
  }
}
