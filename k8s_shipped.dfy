/** The tables as apis/management.cattle.io/v3/k8s_defaults.go ships them, and what
    the startup routine makes of them: every check passes, the derived table holds
    the three current builds, and each build flagged bad is one that the image-tag
    test would reject.

    The facts about single builds are kept one per lemma: each string lookup in the
    catalog is proved apart from the prefix test on the build's long name. */
module K8sShipped {
  import opened K8sCatalog
  import opened K8sDefaults

  /** The tables the routine reads when the package loads. */
  const Shipped: InitTables := InitTables(AllK8sVersions, K8sVersionsCurrent, BadVersions, DefaultK8s)

  /** The catalog's v1.8 builds. */
  const BuildsV1_8: set<string> := {"v1.8.10-rancher1-1", "v1.8.11-rancher1", "v1.8.11-rancher2-1"}

  /** The catalog's v1.9 builds. */
  const BuildsV1_9: set<string> := {"v1.9.5-rancher1-1", "v1.9.7-rancher1", "v1.9.7-rancher2-1", "v1.9.7-rancher2-2"}

  /** The catalog's v1.10 builds. */
  const BuildsV1_10: set<string> := {"v1.10.0-rancher1-1", "v1.10.1-rancher1", "v1.10.1-rancher2-1", "v1.10.3-rancher2-1", "v1.10.5-rancher1-1", "v1.10.5-rancher1-2"}

  /** The catalog's v1.11 builds. */
  const BuildsV1_11: set<string> := {"v1.11.1-rancher1-1"}

  /** The catalog holds exactly the builds of the four minor lines. */
  lemma ShippedCatalogKeys()
    ensures AllK8sVersions.Keys == BuildsV1_8 + BuildsV1_9 + BuildsV1_10 + BuildsV1_11
  {
  }

  // The v1.8 builds.

  /** Build v1.8.10-rancher1-1, flagged bad: its Kubernetes image rancher/hyperkube:v1.8.10-rancher2 is not a prefix of its long name. */
  lemma TagMismatchV1_8_10_rancher1_1()
    ensures "v1.8.10-rancher1-1" in AllK8sVersions && !TagMatches("v1.8.10-rancher1-1", AllK8sVersions["v1.8.10-rancher1-1"])
  {
    assert AllK8sVersions["v1.8.10-rancher1-1"].kubernetes == "rancher/hyperkube:v1.8.10-rancher2";
    assert (HyperkubeRepository + "v1.8.10-rancher1-1")[33] != "rancher/hyperkube:v1.8.10-rancher2"[33];
  }

  /** Build v1.8.11-rancher1, flagged bad: its Kubernetes image rancher/hyperkube:v1.8.11-rancher2 is not a prefix of its long name. */
  lemma TagMismatchV1_8_11_rancher1()
    ensures "v1.8.11-rancher1" in AllK8sVersions && !TagMatches("v1.8.11-rancher1", AllK8sVersions["v1.8.11-rancher1"])
  {
    assert AllK8sVersions["v1.8.11-rancher1"].kubernetes == "rancher/hyperkube:v1.8.11-rancher2";
    assert (HyperkubeRepository + "v1.8.11-rancher1")[33] != "rancher/hyperkube:v1.8.11-rancher2"[33];
  }

  /** The long name of build v1.8.11-rancher2-1 starts with its Kubernetes image.
      Each such prefix fact is proved in a lemma of its own, apart from the
      catalog lookup, so the solver never handles both at once. */
  lemma LongNamePrefixV1_8_11_rancher2_1()
    ensures HasPrefix(HyperkubeRepository + "v1.8.11-rancher2-1", "rancher/hyperkube:v1.8.11-rancher2")
  {
  }

  /** Build v1.8.11-rancher2-1: its Kubernetes image rancher/hyperkube:v1.8.11-rancher2 is a prefix of its long name. */
  lemma TagMatchV1_8_11_rancher2_1()
    ensures "v1.8.11-rancher2-1" in AllK8sVersions && TagMatches("v1.8.11-rancher2-1", AllK8sVersions["v1.8.11-rancher2-1"])
  {
    LongNamePrefixV1_8_11_rancher2_1();
    assert AllK8sVersions["v1.8.11-rancher2-1"].kubernetes == "rancher/hyperkube:v1.8.11-rancher2";
  }

  /** No v1.8 build fails the image-tag check: each one is exempt or passes the test. */
  lemma ShippedTagsPassV1_8(version: string)
    requires version in BuildsV1_8
    ensures !Violates(AllK8sVersions, BadVersions, version)
  {
    if version == "v1.8.11-rancher2-1" {
      TagMatchV1_8_11_rancher2_1();
    } else {
      assert IsBad(BadVersions, version);
    }
  }

  // The v1.9 builds.

  /** The long name of build v1.9.5-rancher1-1 starts with its Kubernetes image. */
  lemma LongNamePrefixV1_9_5_rancher1_1()
    ensures HasPrefix(HyperkubeRepository + "v1.9.5-rancher1-1", "rancher/hyperkube:v1.9.5-rancher1")
  {
  }

  /** Build v1.9.5-rancher1-1: its Kubernetes image rancher/hyperkube:v1.9.5-rancher1 is a prefix of its long name. */
  lemma TagMatchV1_9_5_rancher1_1()
    ensures "v1.9.5-rancher1-1" in AllK8sVersions && TagMatches("v1.9.5-rancher1-1", AllK8sVersions["v1.9.5-rancher1-1"])
  {
    LongNamePrefixV1_9_5_rancher1_1();
    assert AllK8sVersions["v1.9.5-rancher1-1"].kubernetes == "rancher/hyperkube:v1.9.5-rancher1";
  }

  /** Build v1.9.7-rancher1, flagged bad: its Kubernetes image rancher/hyperkube:v1.9.7-rancher2 is not a prefix of its long name. */
  lemma TagMismatchV1_9_7_rancher1()
    ensures "v1.9.7-rancher1" in AllK8sVersions && !TagMatches("v1.9.7-rancher1", AllK8sVersions["v1.9.7-rancher1"])
  {
    assert AllK8sVersions["v1.9.7-rancher1"].kubernetes == "rancher/hyperkube:v1.9.7-rancher2";
    assert (HyperkubeRepository + "v1.9.7-rancher1")[32] != "rancher/hyperkube:v1.9.7-rancher2"[32];
  }

  /** The long name of build v1.9.7-rancher2-1 starts with its Kubernetes image. */
  lemma LongNamePrefixV1_9_7_rancher2_1()
    ensures HasPrefix(HyperkubeRepository + "v1.9.7-rancher2-1", "rancher/hyperkube:v1.9.7-rancher2")
  {
  }

  /** Build v1.9.7-rancher2-1: its Kubernetes image rancher/hyperkube:v1.9.7-rancher2 is a prefix of its long name. */
  lemma TagMatchV1_9_7_rancher2_1()
    ensures "v1.9.7-rancher2-1" in AllK8sVersions && TagMatches("v1.9.7-rancher2-1", AllK8sVersions["v1.9.7-rancher2-1"])
  {
    LongNamePrefixV1_9_7_rancher2_1();
    assert AllK8sVersions["v1.9.7-rancher2-1"].kubernetes == "rancher/hyperkube:v1.9.7-rancher2";
  }

  /** The long name of build v1.9.7-rancher2-2 starts with its Kubernetes image. */
  lemma LongNamePrefixV1_9_7_rancher2_2()
    ensures HasPrefix(HyperkubeRepository + "v1.9.7-rancher2-2", "rancher/hyperkube:v1.9.7-rancher2")
  {
  }

  /** Build v1.9.7-rancher2-2: its Kubernetes image rancher/hyperkube:v1.9.7-rancher2 is a prefix of its long name. */
  lemma TagMatchV1_9_7_rancher2_2()
    ensures "v1.9.7-rancher2-2" in AllK8sVersions && TagMatches("v1.9.7-rancher2-2", AllK8sVersions["v1.9.7-rancher2-2"])
  {
    LongNamePrefixV1_9_7_rancher2_2();
    assert AllK8sVersions["v1.9.7-rancher2-2"].kubernetes == "rancher/hyperkube:v1.9.7-rancher2";
  }

  /** No v1.9 build fails the image-tag check: each one is exempt or passes the test. */
  lemma ShippedTagsPassV1_9(version: string)
    requires version in BuildsV1_9
    ensures !Violates(AllK8sVersions, BadVersions, version)
  {
    if version == "v1.9.5-rancher1-1" {
      TagMatchV1_9_5_rancher1_1();
    } else if version == "v1.9.7-rancher2-1" {
      TagMatchV1_9_7_rancher2_1();
    } else if version == "v1.9.7-rancher2-2" {
      TagMatchV1_9_7_rancher2_2();
    } else {
      assert IsBad(BadVersions, version);
    }
  }

  // The v1.10 builds.

  /** The long name of build v1.10.0-rancher1-1 starts with its Kubernetes image. */
  lemma LongNamePrefixV1_10_0_rancher1_1()
    ensures HasPrefix(HyperkubeRepository + "v1.10.0-rancher1-1", "rancher/hyperkube:v1.10.0-rancher1")
  {
  }

  /** Build v1.10.0-rancher1-1: its Kubernetes image rancher/hyperkube:v1.10.0-rancher1 is a prefix of its long name. */
  lemma TagMatchV1_10_0_rancher1_1()
    ensures "v1.10.0-rancher1-1" in AllK8sVersions && TagMatches("v1.10.0-rancher1-1", AllK8sVersions["v1.10.0-rancher1-1"])
  {
    LongNamePrefixV1_10_0_rancher1_1();
    assert AllK8sVersions["v1.10.0-rancher1-1"].kubernetes == "rancher/hyperkube:v1.10.0-rancher1";
  }

  /** Build v1.10.1-rancher1, flagged bad: its Kubernetes image rancher/hyperkube:v1.10.1-rancher2 is not a prefix of its long name. */
  lemma TagMismatchV1_10_1_rancher1()
    ensures "v1.10.1-rancher1" in AllK8sVersions && !TagMatches("v1.10.1-rancher1", AllK8sVersions["v1.10.1-rancher1"])
  {
    assert AllK8sVersions["v1.10.1-rancher1"].kubernetes == "rancher/hyperkube:v1.10.1-rancher2";
    assert (HyperkubeRepository + "v1.10.1-rancher1")[33] != "rancher/hyperkube:v1.10.1-rancher2"[33];
  }

  /** The long name of build v1.10.1-rancher2-1 starts with its Kubernetes image. */
  lemma LongNamePrefixV1_10_1_rancher2_1()
    ensures HasPrefix(HyperkubeRepository + "v1.10.1-rancher2-1", "rancher/hyperkube:v1.10.1-rancher2")
  {
  }

  /** Build v1.10.1-rancher2-1: its Kubernetes image rancher/hyperkube:v1.10.1-rancher2 is a prefix of its long name. */
  lemma TagMatchV1_10_1_rancher2_1()
    ensures "v1.10.1-rancher2-1" in AllK8sVersions && TagMatches("v1.10.1-rancher2-1", AllK8sVersions["v1.10.1-rancher2-1"])
  {
    LongNamePrefixV1_10_1_rancher2_1();
    assert AllK8sVersions["v1.10.1-rancher2-1"].kubernetes == "rancher/hyperkube:v1.10.1-rancher2";
  }

  /** The long name of build v1.10.3-rancher2-1 starts with its Kubernetes image. */
  lemma LongNamePrefixV1_10_3_rancher2_1()
    ensures HasPrefix(HyperkubeRepository + "v1.10.3-rancher2-1", "rancher/hyperkube:v1.10.3-rancher2")
  {
  }

  /** Build v1.10.3-rancher2-1: its Kubernetes image rancher/hyperkube:v1.10.3-rancher2 is a prefix of its long name. */
  lemma TagMatchV1_10_3_rancher2_1()
    ensures "v1.10.3-rancher2-1" in AllK8sVersions && TagMatches("v1.10.3-rancher2-1", AllK8sVersions["v1.10.3-rancher2-1"])
  {
    LongNamePrefixV1_10_3_rancher2_1();
    assert AllK8sVersions["v1.10.3-rancher2-1"].kubernetes == "rancher/hyperkube:v1.10.3-rancher2";
  }

  /** The long name of build v1.10.5-rancher1-1 starts with its Kubernetes image. */
  lemma LongNamePrefixV1_10_5_rancher1_1()
    ensures HasPrefix(HyperkubeRepository + "v1.10.5-rancher1-1", "rancher/hyperkube:v1.10.5-rancher1")
  {
  }

  /** Build v1.10.5-rancher1-1: its Kubernetes image rancher/hyperkube:v1.10.5-rancher1 is a prefix of its long name. */
  lemma TagMatchV1_10_5_rancher1_1()
    ensures "v1.10.5-rancher1-1" in AllK8sVersions && TagMatches("v1.10.5-rancher1-1", AllK8sVersions["v1.10.5-rancher1-1"])
  {
    LongNamePrefixV1_10_5_rancher1_1();
    assert AllK8sVersions["v1.10.5-rancher1-1"].kubernetes == "rancher/hyperkube:v1.10.5-rancher1";
  }

  /** The long name of build v1.10.5-rancher1-2 starts with its Kubernetes image. */
  lemma LongNamePrefixV1_10_5_rancher1_2()
    ensures HasPrefix(HyperkubeRepository + "v1.10.5-rancher1-2", "rancher/hyperkube:v1.10.5-rancher1")
  {
  }

  /** Build v1.10.5-rancher1-2: its Kubernetes image rancher/hyperkube:v1.10.5-rancher1 is a prefix of its long name. */
  lemma TagMatchV1_10_5_rancher1_2()
    ensures "v1.10.5-rancher1-2" in AllK8sVersions && TagMatches("v1.10.5-rancher1-2", AllK8sVersions["v1.10.5-rancher1-2"])
  {
    LongNamePrefixV1_10_5_rancher1_2();
    assert AllK8sVersions["v1.10.5-rancher1-2"].kubernetes == "rancher/hyperkube:v1.10.5-rancher1";
  }

  /** No v1.10 build fails the image-tag check: each one is exempt or passes the test. */
  lemma ShippedTagsPassV1_10(version: string)
    requires version in BuildsV1_10
    ensures !Violates(AllK8sVersions, BadVersions, version)
  {
    if version == "v1.10.0-rancher1-1" {
      TagMatchV1_10_0_rancher1_1();
    } else if version == "v1.10.1-rancher2-1" {
      TagMatchV1_10_1_rancher2_1();
    } else if version == "v1.10.3-rancher2-1" {
      TagMatchV1_10_3_rancher2_1();
    } else if version == "v1.10.5-rancher1-1" {
      TagMatchV1_10_5_rancher1_1();
    } else if version == "v1.10.5-rancher1-2" {
      TagMatchV1_10_5_rancher1_2();
    } else {
      assert IsBad(BadVersions, version);
    }
  }

  // The v1.11 builds.

  /** The long name of build v1.11.1-rancher1-1 starts with its Kubernetes image. */
  lemma LongNamePrefixV1_11_1_rancher1_1()
    ensures HasPrefix(HyperkubeRepository + "v1.11.1-rancher1-1", "rancher/hyperkube:v1.11.1-rancher1")
  {
  }

  /** Build v1.11.1-rancher1-1: its Kubernetes image rancher/hyperkube:v1.11.1-rancher1 is a prefix of its long name. */
  lemma TagMatchV1_11_1_rancher1_1()
    ensures "v1.11.1-rancher1-1" in AllK8sVersions && TagMatches("v1.11.1-rancher1-1", AllK8sVersions["v1.11.1-rancher1-1"])
  {
    LongNamePrefixV1_11_1_rancher1_1();
    assert AllK8sVersions["v1.11.1-rancher1-1"].kubernetes == "rancher/hyperkube:v1.11.1-rancher1";
  }

  /** No v1.11 build fails the image-tag check: each one is exempt or passes the test. */
  lemma ShippedTagsPassV1_11(version: string)
    requires version in BuildsV1_11
    ensures !Violates(AllK8sVersions, BadVersions, version)
  {
    if version == "v1.11.1-rancher1-1" {
      TagMatchV1_11_1_rancher1_1();
    }
  }

  /** The shipped catalog passes the image-tag check. */
  lemma ShippedTagsConsistent()
    ensures TagsConsistent(AllK8sVersions, BadVersions)
  {
    ShippedCatalogKeys();
    forall version | version in AllK8sVersions
      ensures !Violates(AllK8sVersions, BadVersions, version)
    {
      if version in BuildsV1_8 {
        ShippedTagsPassV1_8(version);
      } else if version in BuildsV1_9 {
        ShippedTagsPassV1_9(version);
      } else if version in BuildsV1_10 {
        ShippedTagsPassV1_10(version);
      } else {
        ShippedTagsPassV1_11(version);
      }
    }
  }

  /** Every current build is in the catalog, so the copy loop runs to the end. */
  lemma ShippedCurrentKnown()
    ensures FirstMissing(AllK8sVersions, K8sVersionsCurrent) == |K8sVersionsCurrent|
  {
    assert K8sVersionsCurrent[0] in AllK8sVersions;
    assert K8sVersionsCurrent[1] in AllK8sVersions;
    assert K8sVersionsCurrent[2] in AllK8sVersions;
    FirstMissingAt(AllK8sVersions, K8sVersionsCurrent, |K8sVersionsCurrent|);
  }

  /** The shipped tables pass every check of the routine. */
  lemma ShippedCatalogInitializes()
    ensures InitSucceeds(Shipped)
  {
    ShippedTagsConsistent();
    ShippedCurrentKnown();
    assert DefaultK8s == K8sVersionsCurrent[2];
  }

  /** The builds listed as current, as a set. */
  lemma ShippedCurrentBuilds()
    ensures (set version | version in K8sVersionsCurrent) ==
              {"v1.9.7-rancher2-2", "v1.10.5-rancher1-2", "v1.11.1-rancher1-1"}
  {
  }

  /** Each build flagged bad is in the catalog, and the image-tag check would reject
      it if it were not exempt. */
  lemma ShippedBadVersionsFailTagTest()
    ensures forall version :: IsBad(BadVersions, version) ==> Violates(AllK8sVersions, map[], version)
  {
    forall version | IsBad(BadVersions, version)
      ensures Violates(AllK8sVersions, map[], version)
    {
      if version == "v1.8.10-rancher1-1" {
        TagMismatchV1_8_10_rancher1_1();
      } else if version == "v1.8.11-rancher1" {
        TagMismatchV1_8_11_rancher1();
      } else if version == "v1.9.7-rancher1" {
        TagMismatchV1_9_7_rancher1();
      } else {
        TagMismatchV1_10_1_rancher1();
      }
    }
  }

  /** Without the exemptions the shipped catalog fails the image-tag check, so the
      routine would abort. */
  lemma ShippedNeedsExemptions()
    ensures !TagsConsistent(AllK8sVersions, map[])
  {
    TagMismatchV1_9_7_rancher1();
    assert Violates(AllK8sVersions, map[], "v1.9.7-rancher1");
  }

  /** Go's package initialisation: the table starts nil and the routine runs once
      over the shipped tables. It succeeds, and the table then holds the three
      current builds, each with its catalog bundle. */
  method LoadPackage() returns (table: VersionTable, outcome: Outcome)
    ensures fresh(table)
    ensures outcome == Pass
    ensures table.k8sVersionToRKESystemImages == Some(Derive(AllK8sVersions, K8sVersionsCurrent))
    ensures table.k8sVersionToRKESystemImages.value.Keys ==
              {"v1.9.7-rancher2-2", "v1.10.5-rancher1-2", "v1.11.1-rancher1-1"}
  {
    table := new VersionTable();
    ShippedCatalogInitializes();
    outcome := table.Init(Shipped);
    ShippedCurrentBuilds();
  }
}
