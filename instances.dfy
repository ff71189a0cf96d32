/** VisualStudioInstance: a discovered installation, its ranking and its major version. */
module Instances {
  import opened TextOrder
  import opened Sorting
  import opened FileSystems

  datatype ReleaseType = Stable | Prerelease | Legacy

  /** The preference weight of a release type: stable over prerelease over legacy. */
  function PreferenceWeight(t: ReleaseType): (w: int)
    ensures 1 <= w <= 3
    ensures w == 3 <==> t == Stable
    ensures w == 1 <==> t == Legacy
  {
    match t
    case Stable => 3
    case Prerelease => 2
    case Legacy => 1
  }

  datatype Instance = Instance(root: Path, version: string, releaseType: ReleaseType)

  /** major_version(): the first two characters of the version text (fewer when
      the text is shorter). A textual convention, not a parsed number. */
  function MajorVersion(inst: Instance): (major: string)
    ensures |major| == if |inst.version| < 2 then |inst.version| else 2
    ensures major == inst.version[..|major|]
  {
    if |inst.version| < 2 then inst.version else inst.version[..2]
  }

  /** The comparator as a key: release-type weight, then version text. */
  function RankKey(inst: Instance): SortKey {
    SortKey(PreferenceWeight(inst.releaseType), inst.version)
  }

  /** preferred_first_comparator: left goes strictly before right. It agrees
      with ordering by the key (weight, version text) that the ranking sorts on. */
  predicate PreferredFirst(left: Instance, right: Instance): (b: bool)
    ensures b <==> Precedes(RankKey(left), RankKey(right))
  {
    if left.releaseType != right.releaseType then
      PreferenceWeight(left.releaseType) > PreferenceWeight(right.releaseType)
    else
      LexLess(right.version, left.version)
  }

  /** The comparator is a strict weak order: irreflexive, asymmetric, transitive,
      and two instances neither of which goes first agree on release type and version. */
  lemma PreferredFirstIsStrictWeakOrder(a: Instance, b: Instance, c: Instance)
    ensures !PreferredFirst(a, a)
    ensures PreferredFirst(a, b) ==> !PreferredFirst(b, a)
    ensures PreferredFirst(a, b) && PreferredFirst(b, c) ==> PreferredFirst(a, c)
    ensures !PreferredFirst(a, b) && !PreferredFirst(b, a) ==>
              a.releaseType == b.releaseType && a.version == b.version
  {
    PrecedesIsStrictTotalOrder(RankKey(a), RankKey(b), RankKey(c));
  }

  /** A higher release-type weight wins whatever the versions; a stable instance
      goes before every prerelease and legacy one, a prerelease before every legacy one. */
  lemma ReleaseTypeDominatesVersion(a: Instance, b: Instance)
    ensures a.releaseType == Stable && b.releaseType != Stable ==> PreferredFirst(a, b)
    ensures a.releaseType == Prerelease && b.releaseType == Legacy ==> PreferredFirst(a, b)
    ensures a.releaseType == b.releaseType ==> (PreferredFirst(a, b) <==> LexLess(b.version, a.version))
  {
  }

  /** Versions compare as text, not as numbers: "9.0" goes before "10.0"
      because '9' is greater than '1'. */
  lemma VersionsCompareAsText(root: Path, t: ReleaseType)
    ensures PreferredFirst(Instance(root, "9.0", t), Instance(root, "10.0", t))
    ensures !PreferredFirst(Instance(root, "10.0", t), Instance(root, "9.0", t))
  {
    assert "10.0"[0] == '1' && "9.0"[0] == '9';
  }

  /** The SortedVector of line 140: the instances, reordered preferred-first. */
  function RankInstances(instances: seq<Instance>): (sorted: seq<Instance>)
    ensures multiset(sorted) == multiset(instances)
    ensures forall i, j :: 0 <= i < j < |sorted| ==> !PreferredFirst(sorted[j], sorted[i])
  {
    var r := SortDescending(instances, RankKey);
    assert forall i, j :: 0 <= i < j < |r| ==> !Precedes(RankKey(r[j]), RankKey(r[i]));
    r
  }

  /** Along the ranked sequence release-type weights never increase, and within
      one release type version texts never increase. */
  lemma {:induction false} RankedOrder(instances: seq<Instance>, i: int, j: int)
    requires 0 <= i < j < |RankInstances(instances)|
    ensures var sorted := RankInstances(instances);
      && PreferenceWeight(sorted[i].releaseType) >= PreferenceWeight(sorted[j].releaseType)
      && (sorted[i].releaseType == sorted[j].releaseType ==> !LexLess(sorted[i].version, sorted[j].version))
  {
    var sorted := RankInstances(instances);
    assert !PreferredFirst(sorted[j], sorted[i]);
  }

  /** v140_is_available: some instance has major version "14". */
  predicate AnyMajor14(instances: seq<Instance>): (b: bool)
    ensures b <==> exists inst :: inst in instances && MajorVersion(inst) == "14"
  {
    exists i :: 0 <= i < |instances| && MajorVersion(instances[i]) == "14"
  }

  /** Ranking does not change whether a "14" instance is present. */
  lemma {:induction false} RankingKeepsMajor14(instances: seq<Instance>)
    ensures AnyMajor14(RankInstances(instances)) == AnyMajor14(instances)
  {
    var sorted := RankInstances(instances);
    if AnyMajor14(instances) {
      var i :| 0 <= i < |instances| && MajorVersion(instances[i]) == "14";
      assert instances[i] in multiset(sorted);
      var k :| 0 <= k < |sorted| && sorted[k] == instances[i];
    }
    if AnyMajor14(sorted) {
      var k :| 0 <= k < |sorted| && MajorVersion(sorted[k]) == "14";
      assert sorted[k] in multiset(instances);
      var i :| 0 <= i < |instances| && instances[i] == sorted[k];
    }
  }
}
