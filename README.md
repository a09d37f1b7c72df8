# Kubernetes version defaults: the startup routine

This project models the package initialisation of
`apis/management.cattle.io/v3/k8s_defaults.go` in Rancher's API types. That file
ships a catalog of Kubernetes builds (`AllK8sVersions`). Each build maps to the
bundle of container images it is deployed with (`RKESystemImages`). The file
also lists the builds currently offered (`k8sVersionsCurrent`) and names a
default build (`DefaultK8s`). When the package loads, `init()` validates the
catalog and derives the package-level table `K8sVersionToRKESystemImages`, which
holds the current builds only. `init()` runs these steps in order:

1. It refuses to run when the table is already non-nil.
2. It sets the table to an empty map.
3. For every catalog build not flagged in its local `badVersions` table, it
   checks that the build's Kubernetes image is a prefix of
   `"rancher/hyperkube:" + build`.
4. It copies every current build's bundle from the catalog into the table. A
   current build missing from the catalog aborts the copy.
5. It requires the default build to be in the table.

Every failure is a panic.

The Dafny model has three modules:

- `K8sCatalog` (`k8s_catalog.dfy`) holds the data. It has the `RKESystemImages`
  record with the 24 components the catalog sets, the 14-entry catalog, the
  current list, the bad table and the default, all written as in the source.
- `K8sDefaults` (`k8s_defaults.dfy`) holds the routine.
  - The package-level variable is a class `VersionTable`. Its field is an
    `Option` of a map, where `None` is Go's nil map.
  - `Init` is the routine. It returns an `Outcome`: `Pass` or `Fail(error)`. A
    panic is a `Fail` carrying which check failed, and the table keeps whatever
    had been written before the panic.
  - The routine's first loop is the method `CheckImageTags`. Go visits a map in
    no fixed order, so the loop picks its next build nondeterministically. Its
    contract therefore holds for every visiting order.
  - The second loop is the method `CopyCurrentBuilds`.
  - Both loops are proved against specification functions: `TagsConsistent`,
    `FirstMissing` and `Derive`.
- `K8sShipped` (`k8s_shipped.dfy`) proves what the routine does with the shipped
  tables.
  - It succeeds, and the table holds exactly the three current builds.
  - Each of the four bad builds would fail the image-tag test if it were not
    exempt.

## Model

| member | source | states |
|---|---|---|
| K8sCatalog.DefaultK8s | apis/management.cattle.io/v3/k8s_defaults.go:11 | defined as the default build v1.11.1-rancher1-1 |
| K8sCatalog.K8sVersionsCurrent | apis/management.cattle.io/v3/k8s_defaults.go:18-22 | defined as the list v1.9.7-rancher2-2, v1.10.5-rancher1-2, v1.11.1-rancher1-1, in the source's order |
| K8sCatalog.AllK8sVersions | apis/management.cattle.io/v3/k8s_defaults.go:71-425 | defined as the 14-entry catalog, each bundle with the image references the source writes for it and the empty string for a component the entry omits |
| K8sCatalog.BadVersions | apis/management.cattle.io/v3/k8s_defaults.go:429-434 | defined as the four builds v1.9.7-rancher1, v1.10.1-rancher1, v1.8.11-rancher1 and v1.8.10-rancher1-1, each mapped to true |
| K8sDefaults.HasPrefix | apis/management.cattle.io/v3/k8s_defaults.go:448 | defined as Go's strings.HasPrefix: the prefix is no longer than the string and equals its leading slice |
| K8sDefaults.HasPrefixIff | apis/management.cattle.io/v3/k8s_defaults.go:448 | the prefix test holds exactly when the string is the prefix followed by some string |
| K8sDefaults.IsBad | apis/management.cattle.io/v3/k8s_defaults.go:443 | defined as the lookup badVersions[version], where a build missing from the table reads as false |
| K8sDefaults.TagMatches | apis/management.cattle.io/v3/k8s_defaults.go:447-448 | defined as the test that the build's Kubernetes image is a prefix of "rancher/hyperkube:" followed by the build's name |
| K8sDefaults.CheckImageTags | apis/management.cattle.io/v3/k8s_defaults.go:442-451 | reports a build exactly when some catalog build that is not flagged bad fails the prefix test, and any build it reports is such a build, in whatever order the catalog is visited |
| K8sDefaults.VersionTable.constructor | apis/management.cattle.io/v3/k8s_defaults.go:24-25 | the derived table starts nil |
| K8sDefaults.VersionTable.Init | apis/management.cattle.io/v3/k8s_defaults.go:428-464 | a non-nil table aborts and stays unchanged; from nil, success holds exactly when the tag test, the catalog lookups and the default check all pass; a tag failure leaves an empty table and reports a failing build; a missing current build leaves the builds listed before it; otherwise the table is the catalog restricted to the current builds, bad or not; on success its keys are exactly the current builds, each value is the catalog's bundle, and the default is a key |
| K8sDefaults.VersionTable.CopyCurrentBuilds | apis/management.cattle.io/v3/k8s_defaults.go:453-459 | the copy completes exactly when every current build is in the catalog; it stops at the first missing one, and the table then holds the catalog entries of the builds listed before it |
| K8sDefaults.FirstMissing | apis/management.cattle.io/v3/k8s_defaults.go:453-457 | the index of the first current build the catalog lacks: every build before it is in the catalog, and the build at it is not |
| K8sDefaults.FirstMissingAt | apis/management.cattle.io/v3/k8s_defaults.go:453-457 | a position where the catalog first lacks a listed build is the position the copy loop aborts at |
| K8sDefaults.DeriveExtend | apis/management.cattle.io/v3/k8s_defaults.go:458 | copying one more current build adds exactly that build's catalog entry to the table |
| K8sDefaults.DerivedKeysAreCurrent | apis/management.cattle.io/v3/k8s_defaults.go:440-459 | when every current build is in the catalog, the derived table's keys are exactly the current builds and its values are the catalog's, so it is a sub-map of the catalog |
| K8sDefaults.InitSucceedsIff | apis/management.cattle.io/v3/k8s_defaults.go:442-463 | from a nil table the routine succeeds exactly when three conditions hold: every build not flagged bad has an image that prefixes its long name, every current build is in the catalog, and the default is listed as current |
| K8sDefaults.DefaultMustBeCurrent | apis/management.cattle.io/v3/k8s_defaults.go:461-463 | a default that the catalog holds but the current list does not name still makes the routine fail |
| K8sDefaults.CurrentOrderIrrelevant | apis/management.cattle.io/v3/k8s_defaults.go:453-459 | two current lists naming the same builds, in any order and with any repetitions, give the same copy outcome and, when the copy completes, the same table |
| K8sDefaults.MoreBadVersionsOnlyExempt | apis/management.cattle.io/v3/k8s_defaults.go:442-445 | flagging more builds bad never makes a passing catalog fail the image-tag test |
| K8sShipped.ShippedCatalogKeys | apis/management.cattle.io/v3/k8s_defaults.go:71-425 | the shipped catalog holds exactly the 14 builds of the v1.8, v1.9, v1.10 and v1.11 lines |
| K8sShipped.TagMismatchV1_8_10_rancher1_1 | apis/management.cattle.io/v3/k8s_defaults.go:72-74 | build v1.8.10-rancher1-1 is in the catalog and its image rancher/hyperkube:v1.8.10-rancher2 fails the prefix test |
| K8sShipped.TagMismatchV1_8_11_rancher1 | apis/management.cattle.io/v3/k8s_defaults.go:97-99 | build v1.8.11-rancher1 is in the catalog and its image rancher/hyperkube:v1.8.11-rancher2 fails the prefix test |
| K8sShipped.TagMatchV1_8_11_rancher2_1 | apis/management.cattle.io/v3/k8s_defaults.go:122-124 | build v1.8.11-rancher2-1 is in the catalog and its image passes the prefix test |
| K8sShipped.TagMatchV1_9_5_rancher1_1 | apis/management.cattle.io/v3/k8s_defaults.go:147-149 | build v1.9.5-rancher1-1 is in the catalog and its image passes the prefix test |
| K8sShipped.TagMismatchV1_9_7_rancher1 | apis/management.cattle.io/v3/k8s_defaults.go:172-174 | build v1.9.7-rancher1 is in the catalog and its image rancher/hyperkube:v1.9.7-rancher2 fails the prefix test |
| K8sShipped.TagMatchV1_9_7_rancher2_1 | apis/management.cattle.io/v3/k8s_defaults.go:197-199 | build v1.9.7-rancher2-1 is in the catalog and its image passes the prefix test |
| K8sShipped.TagMatchV1_9_7_rancher2_2 | apis/management.cattle.io/v3/k8s_defaults.go:222-224 | build v1.9.7-rancher2-2 is in the catalog and its image passes the prefix test |
| K8sShipped.TagMatchV1_10_0_rancher1_1 | apis/management.cattle.io/v3/k8s_defaults.go:248-250 | build v1.10.0-rancher1-1 is in the catalog and its image passes the prefix test |
| K8sShipped.TagMismatchV1_10_1_rancher1 | apis/management.cattle.io/v3/k8s_defaults.go:273-275 | build v1.10.1-rancher1 is in the catalog and its image rancher/hyperkube:v1.10.1-rancher2 fails the prefix test |
| K8sShipped.TagMatchV1_10_1_rancher2_1 | apis/management.cattle.io/v3/k8s_defaults.go:298-300 | build v1.10.1-rancher2-1 is in the catalog and its image passes the prefix test |
| K8sShipped.TagMatchV1_10_3_rancher2_1 | apis/management.cattle.io/v3/k8s_defaults.go:323-325 | build v1.10.3-rancher2-1 is in the catalog and its image passes the prefix test |
| K8sShipped.TagMatchV1_10_5_rancher1_1 | apis/management.cattle.io/v3/k8s_defaults.go:348-350 | build v1.10.5-rancher1-1 is in the catalog and its image passes the prefix test |
| K8sShipped.TagMatchV1_10_5_rancher1_2 | apis/management.cattle.io/v3/k8s_defaults.go:373-375 | build v1.10.5-rancher1-2 is in the catalog and its image passes the prefix test |
| K8sShipped.TagMatchV1_11_1_rancher1_1 | apis/management.cattle.io/v3/k8s_defaults.go:399-401 | build v1.11.1-rancher1-1 is in the catalog and its image passes the prefix test |
| K8sShipped.ShippedTagsPassV1_8 | apis/management.cattle.io/v3/k8s_defaults.go:72-146 | no v1.8 build fails the image-tag check: each one is exempt or passes |
| K8sShipped.ShippedTagsPassV1_9 | apis/management.cattle.io/v3/k8s_defaults.go:147-247 | no v1.9 build fails the image-tag check |
| K8sShipped.ShippedTagsPassV1_10 | apis/management.cattle.io/v3/k8s_defaults.go:248-398 | no v1.10 build fails the image-tag check |
| K8sShipped.ShippedTagsPassV1_11 | apis/management.cattle.io/v3/k8s_defaults.go:399-424 | no v1.11 build fails the image-tag check |
| K8sShipped.ShippedTagsConsistent | apis/management.cattle.io/v3/k8s_defaults.go:442-451 | the shipped catalog, with the shipped exemptions, passes the image-tag check |
| K8sShipped.ShippedCurrentKnown | apis/management.cattle.io/v3/k8s_defaults.go:18-22 | every shipped current build is in the catalog, so the copy loop completes |
| K8sShipped.ShippedCatalogInitializes | apis/management.cattle.io/v3/k8s_defaults.go:428-464 | the shipped tables pass every check of the routine |
| K8sShipped.ShippedCurrentBuilds | apis/management.cattle.io/v3/k8s_defaults.go:18-22 | the current builds are v1.9.7-rancher2-2, v1.10.5-rancher1-2 and v1.11.1-rancher1-1 |
| K8sShipped.ShippedBadVersionsFailTagTest | apis/management.cattle.io/v3/k8s_defaults.go:429-434 | every build flagged bad is in the catalog and would fail the image-tag test without its exemption |
| K8sShipped.ShippedNeedsExemptions | apis/management.cattle.io/v3/k8s_defaults.go:429-451 | without the bad table the shipped catalog fails the image-tag check |
| K8sShipped.LoadPackage | apis/management.cattle.io/v3/k8s_defaults.go:428-464 | loading the package succeeds and leaves the table holding exactly the three current builds, each with its catalog bundle |

## Left out

- `image.Mirror` (line 15) is applied to every image reference. Its body is not
  part of this model. The references are modelled as written, which assumes
  that it returns each reference unchanged.
- The `RKESystemImages` record is declared in a file that is not part of this
  model. Its 24 components are taken from the field names the catalog uses. A
  component an entry omits, such as `MetricsServer`, is the empty string,
  which is Go's zero value.
- `ToolsSystemImages` (lines 46-69) and `K8sVersionServiceOptions` (lines 28-43)
  are data that the routine never reads.
- The text of the panic messages is not modelled. Each failure is identified
  only by its `InitError` case.
- K8sDefaults.VersionTable.Init does not fix which failing build a tag mismatch
  reports. With Go's unspecified map order it can be any of them, so the
  contract only says it is one that fails the test.
- K8sDefaults.VersionTable.Init does not model concurrent access to the
  package-level table. Go runs `init` once, after the package's variables are
  initialised and before any importing package runs.
- The generated controller adapters delegate to the external object client and
  controller framework. Their own logic is not modelled: a mutex-guarded lazy
  construction of the controller, and a nil object for a key missing from the
  store. The norman type declarations have no behaviour.
- K8sDefaults.HasPrefix compares characters, while Go's strings are byte strings
  and `strings.HasPrefix` compares bytes. The two agree on valid UTF-8, and every
  shipped string is ASCII, so nothing the routine relies on is lost.

Points where the file's own text and its code disagree. The model follows the
code:

- The panic message of the tag test (line 449) says the image tag should be a
  "substring" of the version. The code tests that the image is a prefix of
  `"rancher/hyperkube:" + version`, and that is what is modelled.
- The not-found message for a missing current build does not name the build.
  Its `VersionNotFound` error therefore carries no build either.

The copy loop (lines 453-459) never looks at `badVersions`. A bad build that is
listed as current is copied into the table like any other.
