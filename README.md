# Prow cluster-config merge, modelled in Dafny

Prow, the Kubernetes CI system, reaches several build clusters. At start-up it merges up to
three sources of client configs into one map from alias to config, `mergeConfigs(local,
foreign, current, buildClusters)`:

- `local`: the optional in-cluster config of the process itself;
- `foreign`: the contexts of a kubeconfig, keyed by context name, with the kubeconfig's
  current-context name `current`;
- `buildClusters`: an optional override table, the most authoritative source.

The result always binds two reserved aliases: `InClusterContext`, the cluster the process runs
in, and `DefaultClusterAlias`, the cluster used when none is named. The merge can also fail.

The implementation file of `mergeConfigs` (prow/kube/config.go) is not part of this model. Its
behaviour is fixed by the case table of `TestMergeConfigs` in prow/kube/config_test.go, and
the model reproduces every row of it. Where the table is silent the model makes a choice;
each such choice is listed under "## Left out" as an assumption.

Files:

- `cluster_config.dfy`, module `ClusterConfig`:
  - `MergeConfigs` is the merge. It is a pure function, generic in the config type `C`, so it
    can only copy configs, never inspect them. It returns `Result<map<string, C>>`.
  - `Validate` holds the three validation rules, tried in order.
  - `SeedFromLocal` and `SeedFromCurrent` build the map for the two construction paths.
  - `Admissible` and `Binding` are an independent reference. `Admissible` says when a merge
    succeeds. `Binding` gives each alias's value from a precedence table, with a tagged
    `DefaultOrigin` decision for `default`. The lemmas tie the merge to this reference in both
    directions.
- `merge_configs_cases.dfy`, module `MergeConfigsCases`: one lemma per row of the test table.
  Configs are `RestConfig(username)`, as built by the test's `fakeConfig`.

Nil maps are modelled as empty maps. The reserved aliases are the constants `"in-cluster"` and
`"default"`. No proof depends on these values, only on the two being distinct from each other
and from the test's context names.

## Model

| member | source | states |
|---|---|---|
| `ClusterConfig.MergeConfigs` | prow/kube/config_test.go:30-159 | On success, both reserved aliases are bound. The key set is exactly the foreign names, the build-cluster names and the two reserved aliases. |
| `ClusterConfig.Validate` | prow/kube/config_test.go:41-67 | Validation passes exactly when two conditions hold. First, build clusters come only with a local config and a `default` entry. Second, there is a local config or at least one foreign context. Which error each failure gives is stated by `MergeErrorNamesTheRule`. |
| `ClusterConfig.SeedFromLocal` | prow/kube/config_test.go:112-123 | With a local config, the map before overrides has the foreign names plus both reserved aliases. Both reserved aliases hold the local config. Every other foreign context keeps its own config. |
| `ClusterConfig.SeedFromCurrent` | prow/kube/config_test.go:79-110 | Without a local config, the map before overrides has the foreign names plus both reserved aliases. In-cluster holds `foreign[current]`. Default holds the explicit foreign `default` when there is one, and `foreign[current]` otherwise. Every other foreign context, `default` included, keeps its own config. |
| `ClusterConfig.MergeSucceedsIffAdmissible` | prow/kube/config_test.go:41-141 | A merge succeeds if and only if two conditions hold. First, build clusters appear only with a local config and a `default` entry. Second, without a local config, the current context is non-empty and names a foreign entry. |
| `ClusterConfig.MergeErrorNamesTheRule` | prow/kube/config_test.go:41-67 | Each refusal has its own error, and each holds if and only if its condition does. No cluster at all gives `NoClusterConfigured`. Build clusters without local give `BuildClustersRequireLocal`. Build clusters without `default`, with a local config, give `BuildClustersLackDefault`. Foreign-only with no usable current context gives `CurrentContextRequired`. |
| `ClusterConfig.MergeFollowsPrecedence` | prow/kube/config_test.go:68-141 | On success, each alias is in the result exactly when the precedence table binds it, and to the same config. |
| `ClusterConfig.LocalOwnsInCluster` | prow/kube/config_test.go:68-78 | With a local config, in-cluster is the local config (unless build clusters name in-cluster). Default is the build-cluster `default` when build clusters are given, and the local config otherwise. |
| `ClusterConfig.ForeignOnlyUsesCurrentContext` | prow/kube/config_test.go:79-110 | Without a local config, success needs a current context in foreign and no build clusters. In-cluster is then `foreign[current]`. Default is an explicit foreign `default` if present, else `foreign[current]`. |
| `ClusterConfig.ContextsPassThrough` | prow/kube/config_test.go:124-141 | Build-cluster entries appear as given. A non-reserved foreign context that no build-cluster entry overrides appears unchanged under its own name. |
| `ClusterConfig.MergeIsDeterminedByPrecedence` | prow/kube/config_test.go:146-155 | If admissible inputs and a map agree on keys and on every alias's precedence binding, the merge returns exactly that map. This is the whole-map equality the test checks. |
| `ClusterConfig.BuildClustersOverlay` | prow/kube/config_test.go:124-141 | On success, the merge equals the same merge without build clusters, with every build-cluster entry written over it. |
| `MergeConfigsCases.FakeConfig` | prow/kube/config_test.go:31 | The test's `fakeConfig(u)`: a config whose user name is `u`, so configs built from different names differ. |
| `MergeConfigsCases.RequireAtLeastOneCluster` | prow/kube/config_test.go:41-44 | With nothing configured, the merge fails. |
| `MergeConfigsCases.OnlyLocalCluster` | prow/kube/config_test.go:45-52 | Local only yields exactly `{in-cluster: local, default: local}`. |
| `MergeConfigsCases.FailBuildClustersWithoutLocal` | prow/kube/config_test.go:53-59 | Build clusters without a local config fail. |
| `MergeConfigsCases.FailBuildClustersWithoutDefault` | prow/kube/config_test.go:60-67 | Build clusters without `default` fail, even with a local config. |
| `MergeConfigsCases.AcceptLocalAndBuildClusterWithDefault` | prow/kube/config_test.go:68-78 | Yields exactly `{in-cluster: local, default: build default}`. |
| `MergeConfigsCases.ForeignWithoutLocalUsesCurrentAsDefault` | prow/kube/config_test.go:79-90 | Yields exactly `{in-cluster: current, default: current, current-context: current}`. |
| `MergeConfigsCases.RejectOnlyForeignWithoutCurrentContext` | prow/kube/config_test.go:91-97 | Foreign only with an empty current context fails, even when foreign has `default`. |
| `MergeConfigsCases.AcceptOnlyForeignWithDefault` | prow/kube/config_test.go:98-110 | The explicit foreign default is kept. In-cluster is the current context, and the foreign entries pass through. |
| `MergeConfigsCases.AcceptLocalAndForeignUsingLocalForDefault` | prow/kube/config_test.go:111-123 | Local takes both reserved aliases, and the foreign context passes through. |
| `MergeConfigsCases.MergeLocalForeignBuildClusters` | prow/kube/config_test.go:124-141 | Yields exactly `{in-cluster: local, default: build default, random-context: random, other-build: other-build}`. |

## Left out

- `kubeConfigs` and its test (prow/kube/config_test.go:161-242) are not modelled. They read a kubeconfig file from disk and parse it with client-go, whose code is not part of this model.
- The fields of `rest.Config` (host, TLS settings, bearer token) are not modelled. The merge treats a config as an opaque value, so the model makes the config a type parameter.
- The test harness (`t.Run`, `equality.Semantic.DeepEqual`, `diff.ObjectReflectDiff`) is not modelled. Its whole-map comparison is stated by the case lemmas as map equality.
- Error messages are not modelled. The test only checks that an error occurs, so the model has four distinct error values in place of the strings.
- Idempotence (equal inputs give equal results) has no lemma of its own. `MergeConfigs` is a Dafny function, so it holds by construction.
- Assumption, not fixed by the test table: If the build clusters contain `in-cluster`, that entry overrides the local config, because build-cluster entries overwrite every key.
- Assumption, not fixed by the test table: If there is a local config and foreign also has an explicit `default`, the local config takes `default` unless build clusters supply one.
- Assumption, not fixed by the test table: A non-empty current context that names no foreign entry fails with `CurrentContextRequired`. The table only covers an empty current context.
- Assumption, not fixed by the test table: When several rules are broken at once, the error is chosen in a fixed order. The order is: no cluster at all, then build clusters without local, then build clusters without `default`, then the current-context rule. The table only records that an error occurs.
