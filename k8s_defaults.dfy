/** The startup routine of apis/management.cattle.io/v3/k8s_defaults.go:428-464.
    It checks the version catalog and then derives the table of the builds that
    are currently offered. Every check that fails is a panic in the source. Here
    it is a Fail outcome, and the state that the routine had written before the
    panic is kept. */
module K8sDefaults {
  import opened K8sCatalog

  datatype Option<T> = None | Some(value: T)

  /** Why the startup routine aborts. */
  datatype InitError =
    | AlreadyInitialized           // the derived table was non-nil on entry
    | TagMismatch(version: string) // a build whose Kubernetes image fails the prefix test
    | VersionNotFound              // a current build missing from the catalog (the source's message names none)
    | DefaultNotFound              // the default build is missing from the derived table

  datatype Outcome = Pass | Fail(error: InitError)

  /** The four tables the routine reads: the catalog, the current builds, the
      bad builds and the default build. */
  datatype InitTables = InitTables(
    all: map<string, RKESystemImages>,
    current: seq<string>,
    bad: map<string, bool>,
    defaultK8s: string)

  const HyperkubeRepository: string := "rancher/hyperkube:"

  /** strings.HasPrefix(s, prefix) of Go's standard library. */
  predicate HasPrefix(s: string, prefix: string) {
    |prefix| <= |s| && s[..|prefix|] == prefix
  }

  /** HasPrefix says that s is prefix followed by some string. */
  lemma HasPrefixIff(s: string, prefix: string)
    ensures HasPrefix(s, prefix) <==> exists rest :: s == prefix + rest
  {
    if HasPrefix(s, prefix) {
      assert s == prefix + s[|prefix|..];
    }
  }

  /** The lookup badVersions[version]. A build missing from the table reads as false. */
  predicate IsBad(bad: map<string, bool>, version: string) {
    version in bad && bad[version]
  }

  /** The image-tag test for one build. Its Kubernetes image must be a prefix of
      "rancher/hyperkube:" followed by the build's name. */
  predicate TagMatches(version: string, images: RKESystemImages) {
    HasPrefix(HyperkubeRepository + version, images.kubernetes)
  }

  /** A catalog build that the image-tag check rejects. */
  predicate Violates(all: map<string, RKESystemImages>, bad: map<string, bool>, version: string) {
    version in all && !IsBad(bad, version) && !TagMatches(version, all[version])
  }

  /** Every build of the catalog that is not flagged bad passes the image-tag test. */
  predicate TagsConsistent(all: map<string, RKESystemImages>, bad: map<string, bool>) {
    forall version :: version in all ==> !Violates(all, bad, version)
  }

  /** The index of the first listed build that the catalog lacks, or the length
      of the list when the catalog lacks none. */
  function FirstMissing(all: map<string, RKESystemImages>, versions: seq<string>): (n: nat)
    ensures n <= |versions|
    ensures forall j :: 0 <= j < n ==> versions[j] in all
    ensures n < |versions| ==> versions[n] !in all
  {
    if versions == [] || versions[0] !in all then 0
    else 1 + FirstMissing(all, versions[1..])
  }

  /** The catalog restricted to the listed builds: the table the copy loop builds
      when every listed build is in the catalog. (The loop aborts at the first one
      the catalog lacks; on a prefix of the list that stops there, this is the
      table it leaves.) */
  function Derive(all: map<string, RKESystemImages>, versions: seq<string>): (t: map<string, RKESystemImages>)
  {
    map version | version in versions && version in all :: all[version]
  }

  /** Startup from a nil table succeeds exactly when this holds. */
  predicate InitSucceeds(c: InitTables) {
    && TagsConsistent(c.all, c.bad)
    && FirstMissing(c.all, c.current) == |c.current|
    && c.defaultK8s in Derive(c.all, c.current)
  }

  /** The first loop of the routine. It visits the catalog in no fixed order
      (Go's map iteration order is unspecified), skips the builds flagged bad
      and reports the first build whose Kubernetes image fails the prefix test.
      Whichever order is taken, it reports a build exactly when the catalog is
      inconsistent, and the build it reports is one that fails the test. */
  method CheckImageTags(all: map<string, RKESystemImages>, bad: map<string, bool>)
    returns (violator: Option<string>)
    ensures violator.None? <==> TagsConsistent(all, bad)
    ensures violator.Some? ==> Violates(all, bad, violator.value)
  {
    var remaining := all.Keys;
    while remaining != {}
      invariant remaining <= all.Keys
      invariant forall version :: version in all && version !in remaining ==> !Violates(all, bad, version)
      decreases remaining
    {
      var version :| version in remaining;
      remaining := remaining - {version};
      if IsBad(bad, version) {
        continue;
      }
      var images := all[version];
      var longName := HyperkubeRepository + version;
      if !HasPrefix(longName, images.kubernetes) {
        return Some(version);
      }
    }
    return None;
  }

  /** The package-level state that the routine writes. None models Go's nil
      map. Some(t) models a non-nil map, which may be empty. */
  class VersionTable {
    var k8sVersionToRKESystemImages: Option<map<string, RKESystemImages>>

    /** Before the routine runs, the table is nil. */
    constructor ()
      ensures k8sVersionToRKESystemImages == None
    {
      k8sVersionToRKESystemImages := None;
    }

    /** The startup routine, run over the tables in c. Its first loop is
        CheckImageTags and its second is CopyCurrentBuilds. */
    method Init(c: InitTables) returns (outcome: Outcome)
      modifies this
      // The guard: a non-nil table aborts the routine before any check and is left as it was.
      ensures old(k8sVersionToRKESystemImages).Some? ==>
                outcome == Fail(AlreadyInitialized) &&
                k8sVersionToRKESystemImages == old(k8sVersionToRKESystemImages)
      // From a nil table, the routine succeeds exactly when the catalog passes every check.
      ensures old(k8sVersionToRKESystemImages).None? ==> (outcome.Pass? <==> InitSucceeds(c))
      // A failed image-tag test aborts. The table was already set to the empty map.
      ensures old(k8sVersionToRKESystemImages).None? && !TagsConsistent(c.all, c.bad) ==>
                && outcome.Fail? && outcome.error.TagMismatch?
                && Violates(c.all, c.bad, outcome.error.version)
                && k8sVersionToRKESystemImages == Some(map[])
      // A current build missing from the catalog aborts. The table holds the builds listed before it.
      ensures old(k8sVersionToRKESystemImages).None? && TagsConsistent(c.all, c.bad) &&
              FirstMissing(c.all, c.current) < |c.current| ==>
                && outcome == Fail(VersionNotFound)
                && k8sVersionToRKESystemImages == Some(Derive(c.all, c.current[..FirstMissing(c.all, c.current)]))
      // Otherwise the table is the catalog restricted to the current builds, bad or not,
      // and the routine fails only when the default build is not among them.
      ensures old(k8sVersionToRKESystemImages).None? && TagsConsistent(c.all, c.bad) &&
              FirstMissing(c.all, c.current) == |c.current| ==>
                && k8sVersionToRKESystemImages == Some(Derive(c.all, c.current))
                && (outcome.Fail? ==> outcome == Fail(DefaultNotFound))
      // On success the table's keys are exactly the current builds. Each value is the
      // catalog's bundle for that build, and the default build is a key.
      ensures outcome.Pass? ==>
                && k8sVersionToRKESystemImages.Some?
                && k8sVersionToRKESystemImages.value.Keys == (set version | version in c.current)
                && (forall version :: version in k8sVersionToRKESystemImages.value ==>
                      version in c.all && k8sVersionToRKESystemImages.value[version] == c.all[version])
                && c.defaultK8s in k8sVersionToRKESystemImages.value
    {
      if k8sVersionToRKESystemImages.Some? {
        return Fail(AlreadyInitialized);
      }
      k8sVersionToRKESystemImages := Some(map[]);

      var violator := CheckImageTags(c.all, c.bad);
      if violator.Some? {
        return Fail(TagMismatch(violator.value));
      }

      var allKnown := CopyCurrentBuilds(c);
      if !allKnown {
        return Fail(VersionNotFound);
      }
      DerivedKeysAreCurrent(c.all, c.current);

      if c.defaultK8s !in k8sVersionToRKESystemImages.value {
        return Fail(DefaultNotFound);
      }
      return Pass;
    }

    /** The copy loop of the routine: each current build is looked up in the catalog
        and entered into the table, in list order. The first build the catalog lacks
        stops the loop, and the table keeps the builds listed before it. */
    method CopyCurrentBuilds(c: InitTables) returns (allKnown: bool)
      requires k8sVersionToRKESystemImages == Some(map[])
      modifies this
      ensures allKnown <==> FirstMissing(c.all, c.current) == |c.current|
      ensures k8sVersionToRKESystemImages == Some(Derive(c.all, c.current[..FirstMissing(c.all, c.current)]))
      ensures allKnown ==> k8sVersionToRKESystemImages == Some(Derive(c.all, c.current))
    {
      for i := 0 to |c.current|
        invariant forall j :: 0 <= j < i ==> c.current[j] in c.all
        invariant k8sVersionToRKESystemImages == Some(Derive(c.all, c.current[..i]))
      {
        var latest := c.current[i];
        if latest !in c.all {
          FirstMissingAt(c.all, c.current, i);
          return false;
        }
        var images := c.all[latest];
        DeriveExtend(c.all, c.current, i);
        k8sVersionToRKESystemImages := Some(k8sVersionToRKESystemImages.value[latest := images]);
      }
      FirstMissingAt(c.all, c.current, |c.current|);
      assert c.current[..|c.current|] == c.current;
      return true;
    }
  }

  /** When every build before index i is in the catalog and build i is not (or
      i is the end of the list), i is the first missing index. */
  lemma FirstMissingAt(all: map<string, RKESystemImages>, versions: seq<string>, i: nat)
    requires i <= |versions|
    requires forall j :: 0 <= j < i ==> versions[j] in all
    requires i < |versions| ==> versions[i] !in all
    ensures FirstMissing(all, versions) == i
  {
    // An earlier index would name a build the catalog holds; a later one would
    // pass over build i, which it lacks. FirstMissing's contract rules out both.
  }

  /** Copying one more listed build extends the derived table by that build's entry. */
  lemma DeriveExtend(all: map<string, RKESystemImages>, versions: seq<string>, i: nat)
    requires i < |versions| && versions[i] in all
    ensures Derive(all, versions[..i + 1]) == Derive(all, versions[..i])[versions[i] := all[versions[i]]]
  {
    assert versions[..i + 1] == versions[..i] + [versions[i]];
  }

  /** When the catalog holds every listed build, the derived table's keys are the
      listed builds and its values are the catalog's: a sub-map of the catalog. */
  lemma DerivedKeysAreCurrent(all: map<string, RKESystemImages>, versions: seq<string>)
    requires FirstMissing(all, versions) == |versions|
    ensures Derive(all, versions).Keys == (set version | version in versions)
    ensures forall version :: version in Derive(all, versions) ==>
              version in all && Derive(all, versions)[version] == all[version]
  {
  }

  /** Success from a nil table, stated without the helper functions: no bad-exempt
      build fails the image test, every current build is in the catalog, and the
      default build is listed as current. */
  lemma InitSucceedsIff(c: InitTables)
    ensures InitSucceeds(c) <==>
              && (forall version :: version in c.all && !IsBad(c.bad, version) ==>
                    TagMatches(version, c.all[version]))
              && (forall j :: 0 <= j < |c.current| ==> c.current[j] in c.all)
              && c.defaultK8s in c.current
  {
    if forall j :: 0 <= j < |c.current| ==> c.current[j] in c.all {
      FirstMissingAt(c.all, c.current, |c.current|);
    }
  }

  /** The default build must be listed as current. The catalog holding it is not enough. */
  lemma DefaultMustBeCurrent(c: InitTables)
    requires c.defaultK8s in c.all
    requires c.defaultK8s !in c.current
    ensures !InitSucceeds(c)
  {
  }

  /** Only the set of current builds matters. Reordering the list or repeating a
      build changes neither whether the copy completes nor, when it completes, the
      table it builds. (The partial table left by an aborted copy does depend on
      the order.) */
  lemma CurrentOrderIrrelevant(all: map<string, RKESystemImages>, a: seq<string>, b: seq<string>)
    requires forall version :: version in a <==> version in b
    ensures (FirstMissing(all, a) == |a|) <==> (FirstMissing(all, b) == |b|)
    ensures Derive(all, a) == Derive(all, b)
  {
    if FirstMissing(all, a) == |a| {
      forall j | 0 <= j < |b|
        ensures b[j] in all
      {
        assert b[j] in a;
      }
      FirstMissingAt(all, b, |b|);
    }
    if FirstMissing(all, b) == |b| {
      forall j | 0 <= j < |a|
        ensures a[j] in all
      {
        assert a[j] in b;
      }
      FirstMissingAt(all, a, |a|);
    }
  }

  /** Flagging more builds as bad can only make the image-tag check pass more often. */
  lemma MoreBadVersionsOnlyExempt(all: map<string, RKESystemImages>, bad: map<string, bool>, bad': map<string, bool>)
    requires forall version :: IsBad(bad, version) ==> IsBad(bad', version)
    requires TagsConsistent(all, bad)
    ensures TagsConsistent(all, bad')
  {
  }
}
