# Visual Studio toolset discovery, modelled in Dafny

vcpkg looks for a usable Visual C++ toolset before it builds anything. The logic
is in `toolsrc/src/vcpkg/visualstudio.cpp`. It works in four steps:

1. It enumerates Visual Studio instances. These come from vswhere's records, from
   the `vs140comntools` variable and from the default VS2015 folder.
2. It ranks them preferred-first: stable, then prerelease, then legacy, and the
   greater version text first within one release type.
3. It resolves each ranked instance against the layout of its generation.
   - VS2017 ("15"): `VC\Auxiliary\Build\vcvarsall.bat`, plus a scan of
     `VC\Tools\MSVC` for the latest folder that holds `bin\HostX86\x86\dumpbin.exe`.
   - VS2015 / VS2013 ("14" / "12"): `VC\vcvarsall.bat` and `VC\bin\dumpbin.exe`.

   A toolset whose English language pack (`1033` beside dumpbin.exe) is missing
   is excluded. For a VS2015/VS2013 instance that exclusion also ends the whole
   loop.
4. It reports the outcome. Exclusions produce a warning. Finding nothing is fatal
   and lists every examined path. Otherwise the found toolsets are returned.

The filesystem is a snapshot: a set of existing paths, a set of directories and a
map from a directory to its listing. Paths are sequences of segments. vswhere's
output comes in already parsed, together with its exit code. The program's fatal
exits become `Err` values of `Wrappers.Failure`.

Modules, one per file:

- `Wrappers`: `Option`, `Result` and the fatal outcomes (`Failure`).
- `TextOrder`: the string order behind `operator>`.
- `Sorting`: one insertion sort by a (weight, text) key. It is used for ranking
  and for the MSVC folder order.
- `FileSystems`: paths and the filesystem snapshot.
- `Instances`: `VisualStudioInstance`, the comparator and the ranking.
- `Enumeration`: `get_visual_studio_instances`.
- `Toolsets`: `Toolset`, the architecture menus and `supported_architectures`.
- `Resolution`: the loop of `find_toolset_instances_preferred_first`.
- `Discovery`: the whole function and its outcome.

The loops of the source are methods. Each method is proved equal to a
specification function: `InstancesFromVsWhere`, `EnumerateInstances`,
`ScanToolchains`, `VisitModern`, `VisitLegacy`, `Visit`, `Resolve`,
`ExclusionWarning` and `FindToolsets`. The lemmas state the
source's rules about those functions.

## Model

| member | source | states |
|---|---|---|
| `TextOrder.LexLessTrichotomy` | toolsrc/src/vcpkg/visualstudio.cpp:42 | the string order used to compare versions is total and asymmetric: exactly one of a < b, a == b, b < a holds |
| `TextOrder.LexLessTransitive` | toolsrc/src/vcpkg/visualstudio.cpp:42 | the string order is transitive |
| `Sorting.SortDescending` | toolsrc/src/vcpkg/visualstudio.cpp:186-189 | the sort returns a permutation of its input in which no element has a strictly greater key than one placed before it |
| `Instances.MajorVersion` | toolsrc/src/vcpkg/visualstudio.cpp:54 | the major version is the first two characters of the version text, or the whole text when it is shorter |
| `Instances.PreferredFirstIsStrictWeakOrder` | toolsrc/src/vcpkg/visualstudio.cpp:25-43 | the comparator is irreflexive, asymmetric and transitive; two instances neither of which goes first have the same release type and the same version |
| `Instances.ReleaseTypeDominatesVersion` | toolsrc/src/vcpkg/visualstudio.cpp:25-43 | stable goes before prerelease and legacy, and prerelease before legacy, whatever the versions; within one release type the greater version text goes first, in both directions |
| `Instances.VersionsCompareAsText` | toolsrc/src/vcpkg/visualstudio.cpp:42 | versions are compared as text: "9.0" goes before "10.0" |
| `Instances.PreferenceWeight` | toolsrc/src/vcpkg/visualstudio.cpp:27-35 | weights lie in 1..3: stable alone weighs 3 and legacy alone weighs 1, so prerelease lies strictly between them |
| `Instances.PreferredFirst` | toolsrc/src/vcpkg/visualstudio.cpp:25-43 | the comparator holds exactly when the left instance's key (release-type weight, then version text) precedes the right one's, so sorting by that key ranks by the comparator |
| `Instances.RankInstances` | toolsrc/src/vcpkg/visualstudio.cpp:140-141 | the ranked sequence is a permutation of the enumerated instances, and no instance goes before one ranked ahead of it |
| `Instances.RankedOrder` | toolsrc/src/vcpkg/visualstudio.cpp:140-141 | along the ranked sequence release-type weights (3, 2, 1) never increase, and within one release type versions never increase |
| `Instances.AnyMajor14` | toolsrc/src/vcpkg/visualstudio.cpp:143-145 | v140 is available exactly when some instance in the sequence has major version "14" |
| `Instances.RankingKeepsMajor14` | toolsrc/src/vcpkg/visualstudio.cpp:143-145 | whether some instance has major version "14" is the same before and after ranking |
| `Enumeration.ReleaseTypeOf` | toolsrc/src/vcpkg/visualstudio.cpp:79-92 | no flag gives legacy, "0" gives stable, "1" gives prerelease, each in both directions; any other flag is the unreachable failure and never a default |
| `Enumeration.InstancesFromVsWhereSpec` | toolsrc/src/vcpkg/visualstudio.cpp:75-100 | the vswhere records give instances exactly when every flag is valid: one instance per record, in order, with its path, version and mapped release type; otherwise the unreachable failure |
| `Enumeration.ReadVsWhereInstances` | toolsrc/src/vcpkg/visualstudio.cpp:77-100 | the loop over records computes exactly the record-by-record result above, aborting at the first invalid flag |
| `Enumeration.AppendIfHasCl` | toolsrc/src/vcpkg/visualstudio.cpp:103-109 | a candidate root gives one instance, legacy with version "14.0", exactly when both VC/bin/cl.exe and VC/vcvarsall.bat exist under it, and nothing otherwise |
| `Enumeration.LegacyProbeRoots` | toolsrc/src/vcpkg/visualstudio.cpp:111-123 | with vs140comntools set, three roots are probed in this order: two levels up from it, three levels up, then the default folder; without it only the default folder is probed. The default "Microsoft Visual Studio 14.0" folder under Program Files is always last |
| `Enumeration.LegacyInstances` | toolsrc/src/vcpkg/visualstudio.cpp:103-123 | a probe root yields a legacy "14.0" instance exactly when it holds both cl.exe and vcvarsall.bat. Every probe root that holds both is enumerated, no other instance comes from the probes, and the instances keep the probing order of their roots |
| `Enumeration.ProbeLegacyRoots` | toolsrc/src/vcpkg/visualstudio.cpp:103-109 | probing roots one by one yields only legacy "14.0" instances at probed roots that hold both cl.exe and vcvarsall.bat, and no more instances than roots (ProbeLegacyRootsKeepsOrder adds that their roots follow the probing order) |
| `Enumeration.ProbeLegacyRootsFindsAll` | toolsrc/src/vcpkg/visualstudio.cpp:103-109 | every probed root holding both cl.exe and vcvarsall.bat yields its legacy "14.0" instance |
| `Enumeration.ProbeLegacyRootsKeepsOrder` | toolsrc/src/vcpkg/visualstudio.cpp:103-109 | the roots of the probed instances appear in the order in which the roots were probed |
| `Enumeration.LegacyInstancesInOrder` | toolsrc/src/vcpkg/visualstudio.cpp:111-123 | the legacy instances are the results of the two-levels-up, three-levels-up and default-folder probes, appended in that order |
| `Enumeration.EnumerateInstances` | toolsrc/src/vcpkg/visualstudio.cpp:57-126 | without Program Files enumeration is fatal. When vswhere.exe exists, exits with 0 and reports only valid flags, the result is vswhere's instances followed by the legacy probe instances. Without vswhere.exe the legacy probe instances are all there is, and on any success they come last |
| `Enumeration.GetVisualStudioInstances` | toolsrc/src/vcpkg/visualstudio.cpp:57-126 | the method returns exactly the enumeration function's result: vswhere's instances (only when vswhere.exe exists), then the legacy probes in order |
| `Enumeration.EnumeratedInstanceOrigins` | toolsrc/src/vcpkg/visualstudio.cpp:57-126 | every enumerated instance is either a vswhere record with its mapped release type, or a legacy "14.0" instance whose root has cl.exe and vcvarsall.bat |
| `Enumeration.EnumerationFailures` | toolsrc/src/vcpkg/visualstudio.cpp:62-91 | enumeration fails exactly when Program Files is unknown, or when vswhere.exe exists and either exits non-zero or reports a flag other than "0" or "1" |
| `Toolsets.SupportedArchitectures` | toolsrc/src/vcpkg/visualstudio.cpp:160-177 | the architectures are the menu options whose script exists, in menu order (a subsequence of the menu), and nothing else; the same function serves the six-entry legacy menu of lines 239-251 |
| `Resolution.DirectoriesOnly` | toolsrc/src/vcpkg/visualstudio.cpp:181-183 | the kept paths are exactly the listed paths that are directories, with no copies added |
| `Resolution.MsvcSubdirectoriesSpec` | toolsrc/src/vcpkg/visualstudio.cpp:180-189 | the scanned folders are exactly the directories listed under VC\Tools\MSVC, in descending filename order |
| `Resolution.FirstWithDumpbin` | toolsrc/src/vcpkg/visualstudio.cpp:191-195 | the chosen folder is the first, in scan order, that holds dumpbin.exe; no earlier folder does |
| `Resolution.FirstWithDumpbinIsLatest` | toolsrc/src/vcpkg/visualstudio.cpp:186-195 | over folders sorted by descending name, the first folder holding dumpbin.exe is the latest one that does: no folder with a greater name holds dumpbin.exe |
| `Resolution.ScanToolchainFolders` | toolsrc/src/vcpkg/visualstudio.cpp:191-223 | the folder loop computes exactly the scan function: it probes dumpbin paths in order, stops at the first one that exists, and emits v141, v141 plus v140, or one exclusion |
| `Resolution.ScanToolchainsYield` | toolsrc/src/vcpkg/visualstudio.cpp:191-223 | a scan yields at most two found toolsets or one excluded one, never both. Two are found exactly when v140 is available, and the second is the v141 toolset retagged v140 with the argument -vcvars_ver=14.0. Only dumpbin paths up to the first existing one are examined, and that dumpbin.exe is used whether or not its language pack exists |
| `Resolution.ResolveModern` | toolsrc/src/vcpkg/visualstudio.cpp:150-226 | the VS2017 branch computes exactly the modern visit: vcvarsall.bat is recorded first, a missing vcvarsall.bat skips the instance, and otherwise the folder scan decides |
| `Resolution.ModernInstanceYield` | toolsrc/src/vcpkg/visualstudio.cpp:150-226 | a "15" instance never ends the loop. Without vcvarsall.bat it adds only that path. Otherwise it adds at most two found toolsets or one excluded one, never both. Something is added exactly when some MSVC folder holds dumpbin.exe. Two toolsets are found exactly when v140 is available, and the second is the v141 one retagged v140 with -vcvars_ver=14.0. The folder used is the first in descending name order that holds dumpbin.exe, and no folder with a greater name holds one. The examined list is vcvarsall.bat, then the dumpbin paths up to that folder, or all of them when none holds one. Every toolset has the instance's root, its vcvarsall.bat and the architecture list read from the eight-entry menu beside vcvarsall.bat |
| `Resolution.ResolveLegacy` | toolsrc/src/vcpkg/visualstudio.cpp:228-273 | the VS2015/VS2013 branch computes exactly the legacy visit, and reports whether the loop must be left |
| `Resolution.LegacyInstanceOutcome` | toolsrc/src/vcpkg/visualstudio.cpp:228-273 | A missing vcvarsall.bat only records that path and does not stop the loop. Otherwise vcvarsall.bat and dumpbin.exe are examined in that order. The loop stops exactly when dumpbin.exe exists and the language pack does not, and it then leaves exactly one excluded toolset. Exactly one toolset is found when vcvarsall.bat, `VC\bin\dumpbin.exe` and the language pack all exist, and none otherwise. Every toolset has the instance's root, that vcvarsall.bat and that dumpbin.exe, is tagged v140 for "14" and v120 for "12", and carries the legacy architecture list |
| `Resolution.OtherMajorVersionsContributeNothing` | toolsrc/src/vcpkg/visualstudio.cpp:147-228 | an instance whose major version is not "15", "14" or "12" adds nothing |
| `Resolution.ResolveInstance` | toolsrc/src/vcpkg/visualstudio.cpp:147-273 | one iteration of the instance loop computes exactly the visit of that instance, dispatched on its major version |
| `Resolution.ResolveRanked` | toolsrc/src/vcpkg/visualstudio.cpp:147-274 | the instance loop produces exactly the found, excluded and examined lists of the resolution function, including the early exit |
| `Resolution.StoppedIsFinal` | toolsrc/src/vcpkg/visualstudio.cpp:264-268 | after the loop has been left, no later instance changes any result |
| `Resolution.ScanToolsetsComplete` | toolsrc/src/vcpkg/visualstudio.cpp:195-208 | the toolsets of a folder scan use an existing dumpbin.exe; the found ones have the language pack beside it and the excluded one does not |
| `Resolution.VisitToolsetsComplete` | toolsrc/src/vcpkg/visualstudio.cpp:195-270 | every toolset one instance adds belongs to that instance. A found one has vcvarsall.bat, dumpbin.exe and the language pack. An excluded one has vcvarsall.bat and dumpbin.exe but no language pack |
| `Resolution.ResolvedToolsetsComplete` | toolsrc/src/vcpkg/visualstudio.cpp:147-274 | across the whole loop, every found toolset is complete and every excluded one lacks only its language pack |
| `Resolution.ExaminedRecordsEveryVisitedVcvarsall` | toolsrc/src/vcpkg/visualstudio.cpp:150-236 | every "15", "14" or "12" instance the loop reaches has its vcvarsall.bat path in the examined list, whether or not the file exists |
| `Resolution.LegacyExclusionEndsResolution` | toolsrc/src/vcpkg/visualstudio.cpp:262-268 | A legacy exclusion ends the loop. The result equals the result up to and including that instance, so no later instance contributes. The found list is unchanged and exactly one excluded toolset is added |
| `Discovery.Conclude` | toolsrc/src/vcpkg/visualstudio.cpp:288-299 | an empty found list is the failure carrying every examined path; otherwise the result is the found list, non-empty and in insertion order |
| `Discovery.ExclusionWarning` | toolsrc/src/vcpkg/visualstudio.cpp:276-286 | the warning lists the root of each excluded toolset, in order |
| `Discovery.WarnExcluded` | toolsrc/src/vcpkg/visualstudio.cpp:281-284 | the warning loop collects exactly those roots |
| `Discovery.FindToolsetInstancesPreferredFirst` | toolsrc/src/vcpkg/visualstudio.cpp:128-300 | the whole function computes exactly the discovery function: enumerate, rank, set v140 availability, resolve and conclude; the warning lists the excluded roots |
| `Discovery.FoundToolsetsAreComplete` | toolsrc/src/vcpkg/visualstudio.cpp:288-299 | a successful discovery returns a non-empty list in which every toolset has vcvarsall.bat, dumpbin.exe and the English language pack |
| `Discovery.NothingFoundIsFatal` | toolsrc/src/vcpkg/visualstudio.cpp:288-297 | discovery fails for want of a toolset exactly when enumeration succeeded and the loop found nothing, and the failure lists the examined paths |

## Left out

- Running vswhere.exe (lines 65-73) is process execution. Its exit code, output
  and parsed records are an input (`VsWhereRun`). The existence check of
  vswhere.exe and the non-zero-exit failure are modelled.
- The `StringRange::find_*_enclosed` helpers live in a file that is not part of
  this model. Each vswhere record arrives with its flag, path and version already
  extracted. A record missing its path or version (an abort in
  `find_exactly_one_enclosed`) cannot be represented.
- Environment variables, `get_program_files_32_bit`, `exists`, `is_directory`
  and `get_files_non_recursive` are parameters. A directory missing from the
  listing map lists as empty.
- Paths are segment sequences, so `parent_path` drops one segment. Relative
  names written with a backslash (`amd64\vcvars64.bat`) are two segments. The
  trailing-separator ambiguity at lines 115-119 is kept only in that both
  candidate roots are probed.
- Diagnostic text (`println`) is not modelled. The warning is the list of
  excluded roots. The fatal outcome is `NoCompleteToolset` with the examined
  paths.
- `Checks::unreachable` inside `get_preference_weight` cannot happen with a
  closed release-type datatype.
- Instances.RankInstances: only "sorted by the comparator and a permutation" is
  stated. `SortedVector` is not part of this model, so its stability is not
  claimed. The insertion sort used here happens to be stable. The source's order
  among instances that tie on release type and version is not fixed by this file.
- Resolution.MsvcSubdirectoriesSpec: `std::sort` is not stable. The model orders
  folders with equal filenames in listing order. One directory listing never
  holds two such folders.
- The examined list has only what the source records: vcvarsall and dumpbin
  paths. Probes of architecture scripts and language packs are not recorded, in
  the source or here.
- The early exit after a legacy exclusion (line 267) is kept as written: the
  whole instance loop is left (`leaveLoop`), and later instances add nothing.
