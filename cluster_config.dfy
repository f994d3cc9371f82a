/** The merge of Prow's cluster-access sources into one alias -> client-config map.

    Three optional sources are merged:
    - `local`: the in-process ("in-cluster") client config, when the process runs inside a cluster;
    - `foreign`: every context of a kubeconfig, keyed by context name, with the kubeconfig's
      `current` context name beside it;
    - `buildClusters`: an authoritative override table.
    The result binds the two reserved aliases `InClusterContext` and `DefaultClusterAlias`,
    or the merge fails. The client config itself is a type parameter `C`: the merge copies
    configs around and never looks inside one.
 */
module ClusterConfig {

  /** Reserved alias of the config that reaches the cluster the process itself runs in. */
  const InClusterContext: string := "in-cluster"

  /** Reserved alias of the config used when a caller names no cluster. */
  const DefaultClusterAlias: string := "default"

  datatype Option<+T> = None | Some(value: T)

  /** The distinct ways a merge is refused. */
  datatype MergeError =
    | NoClusterConfigured        // no local config, no foreign context, no build cluster
    | BuildClustersRequireLocal  // build clusters were given but there is no local config
    | BuildClustersLackDefault   // build clusters were given without a `default` entry
    | CurrentContextRequired     // foreign-only, and the current context names no foreign entry

  datatype Result<+T> = Ok(value: T) | Err(error: MergeError)

  /** The validation phase, run before anything is built: the first rule violated, if any.
      A nil map and an empty map are the same input here. The order in which the rules are
      tried is an assumption: the test table only records that an error occurs. */
  function Validate<C>(local: Option<C>, foreign: map<string, C>, buildClusters: map<string, C>)
    : (e: Option<MergeError>)
    ensures e.None? <==>
      && (buildClusters != map[] ==> local.Some? && DefaultClusterAlias in buildClusters)
      && (local.Some? || foreign != map[])
  {
    if local.None? && foreign == map[] && buildClusters == map[] then Some(NoClusterConfigured)
    else if buildClusters != map[] && local.None? then Some(BuildClustersRequireLocal)
    else if buildClusters != map[] && DefaultClusterAlias !in buildClusters then Some(BuildClustersLackDefault)
    else None
  }

  /** Construction with a local config: the foreign contexts under their own names, and the
      local config under both reserved aliases. */
  function SeedFromLocal<C>(localConfig: C, foreign: map<string, C>): (m: map<string, C>)
    ensures m.Keys == foreign.Keys + {InClusterContext, DefaultClusterAlias}
    ensures m[InClusterContext] == localConfig && m[DefaultClusterAlias] == localConfig
    ensures forall k | k in foreign && k != InClusterContext && k != DefaultClusterAlias :: m[k] == foreign[k]
  {
    foreign[InClusterContext := localConfig][DefaultClusterAlias := localConfig]
  }

  /** Construction without a local config: the foreign contexts under their own names, the
      current context under in-cluster, and under default unless foreign carries its own. */
  function SeedFromCurrent<C>(foreign: map<string, C>, current: string): (m: map<string, C>)
    requires current in foreign
    ensures m.Keys == foreign.Keys + {InClusterContext, DefaultClusterAlias}
    ensures m[InClusterContext] == foreign[current]
    ensures m[DefaultClusterAlias]
            == if DefaultClusterAlias in foreign then foreign[DefaultClusterAlias] else foreign[current]
    ensures forall k | k in foreign && k != InClusterContext :: m[k] == foreign[k]
  {
    var seeded := foreign[InClusterContext := foreign[current]];
    if DefaultClusterAlias in foreign then seeded
    else seeded[DefaultClusterAlias := foreign[current]]
  }

  /** mergeConfigs(local, foreign, current, buildClusters).
      Construction, once validation has passed: every foreign context is copied under its own
      name; the local config, when there is one, takes both reserved aliases; otherwise the
      current foreign context takes in-cluster, and default too unless foreign already carries
      an explicit `default`; finally every build cluster entry overwrites its key. */
  function MergeConfigs<C>(local: Option<C>, foreign: map<string, C>, current: string,
                           buildClusters: map<string, C>): (r: Result<map<string, C>>)
    ensures r.Ok? ==> r.value.Keys == foreign.Keys + buildClusters.Keys + {InClusterContext, DefaultClusterAlias}
  {
    match Validate(local, foreign, buildClusters)
    case Some(e) => Err(e)
    case None =>
      if local.Some? then
        Ok(SeedFromLocal(local.value, foreign) + buildClusters)
      else if current == "" || current !in foreign then
        Err(CurrentContextRequired)
      else
        Ok(SeedFromCurrent(foreign, current) + buildClusters)
  }

  // ---------------------------------------------------------------------------------------
  // Reference definitions: when a merge may succeed, and where each alias takes its config.
  // ---------------------------------------------------------------------------------------

  /** The inputs a merge accepts: build clusters only beside a local config and only with a
      `default` entry; without a local config, a current context that names a foreign entry.
      Refusing a non-empty current context that names no foreign entry is an assumption: the
      test table only refuses an empty one. */
  predicate Admissible<C>(local: Option<C>, foreign: map<string, C>, current: string,
                          buildClusters: map<string, C>)
  {
    && (buildClusters != map[] ==> local.Some? && DefaultClusterAlias in buildClusters)
    && (local.None? ==> current != "" && current in foreign)
  }

  /** The source of the `default` alias, as a tagged decision. */
  datatype DefaultOrigin = FromBuildClusters | FromLocal | FromForeignDefault | FromCurrentContext

  /** Build clusters beat everything; an explicit foreign `default` beats the one derived from
      the current context. That a local config beats an explicit foreign `default` is an
      assumption: no row of the test table has both. */
  function DefaultOriginOf<C>(local: Option<C>, foreign: map<string, C>, buildClusters: map<string, C>)
    : DefaultOrigin
  {
    if DefaultClusterAlias in buildClusters then FromBuildClusters
    else if local.Some? then FromLocal
    else if DefaultClusterAlias in foreign then FromForeignDefault
    else FromCurrentContext
  }

  /** The config an admissible merge binds to `alias`, alias by alias, or None when the
      alias is absent from the result. That a build-cluster entry named in-cluster beats the
      local config is an assumption: no row of the test table supplies one. */
  function Binding<C>(local: Option<C>, foreign: map<string, C>, current: string,
                      buildClusters: map<string, C>, alias: string): Option<C>
    requires Admissible(local, foreign, current, buildClusters)
  {
    if alias == DefaultClusterAlias then
      match DefaultOriginOf(local, foreign, buildClusters)
      case FromBuildClusters => Some(buildClusters[DefaultClusterAlias])
      case FromLocal => Some(local.value)
      case FromForeignDefault => Some(foreign[DefaultClusterAlias])
      case FromCurrentContext => Some(foreign[current])
    else if alias in buildClusters then Some(buildClusters[alias])
    else if alias == InClusterContext then
      Some(if local.Some? then local.value else foreign[current])
    else if alias in foreign then Some(foreign[alias])
    else None
  }

  // ---------------------------------------------------------------------------------------
  // Properties of the merge.
  // ---------------------------------------------------------------------------------------

  /** A merge succeeds exactly on the admissible inputs. */
  lemma MergeSucceedsIffAdmissible<C>(local: Option<C>, foreign: map<string, C>, current: string,
                                      buildClusters: map<string, C>)
    ensures MergeConfigs(local, foreign, current, buildClusters).Ok?
            <==> Admissible(local, foreign, current, buildClusters)
  {
  }

  /** Every refusal names the rule that was broken, and each rule is refused with its own error:
      the validation rules are tried in order, the current-context rule last. */
  lemma MergeErrorNamesTheRule<C>(local: Option<C>, foreign: map<string, C>, current: string,
                                  buildClusters: map<string, C>)
    ensures var r := MergeConfigs(local, foreign, current, buildClusters);
      && (r == Err(NoClusterConfigured) <==> local.None? && foreign == map[] && buildClusters == map[])
      && (r == Err(BuildClustersRequireLocal) <==> local.None? && buildClusters != map[])
      && (r == Err(BuildClustersLackDefault) <==>
            local.Some? && buildClusters != map[] && DefaultClusterAlias !in buildClusters)
      && (r == Err(CurrentContextRequired) <==>
            local.None? && foreign != map[] && buildClusters == map[] && (current == "" || current !in foreign))
  {
  }

  /** A successful merge binds every alias exactly as the precedence table says. */
  lemma MergeFollowsPrecedence<C>(local: Option<C>, foreign: map<string, C>, current: string,
                                  buildClusters: map<string, C>, alias: string)
    requires MergeConfigs(local, foreign, current, buildClusters).Ok?
    ensures Admissible(local, foreign, current, buildClusters)
    ensures var m := MergeConfigs(local, foreign, current, buildClusters).value;
            var b := Binding(local, foreign, current, buildClusters, alias);
      && (alias in m <==> b.Some?)
      && (alias in m ==> m[alias] == b.value)
  {
    var m := MergeConfigs(local, foreign, current, buildClusters).value;
    var seed := if local.Some? then SeedFromLocal(local.value, foreign) else SeedFromCurrent(foreign, current);
    assert m == seed + buildClusters;
    if alias in buildClusters {
      assert m[alias] == buildClusters[alias];
    } else if alias == InClusterContext {
      assert m[alias] == seed[alias];
    } else if alias == DefaultClusterAlias {
      assert m[alias] == seed[alias];
    } else {
      assert alias in m <==> alias in foreign;
      assert alias in m ==> m[alias] == foreign[alias];
    }
  }

  /** A local config always answers for the in-cluster alias, and for default unless the build
      clusters supply one. Both parts rest on assumptions where the test table is silent: a
      build-cluster entry named in-cluster would win, and the local config wins default over an
      explicit foreign `default`. */
  lemma LocalOwnsInCluster<C>(local: Option<C>, foreign: map<string, C>, current: string,
                              buildClusters: map<string, C>)
    requires local.Some?
    requires MergeConfigs(local, foreign, current, buildClusters).Ok?
    ensures var m := MergeConfigs(local, foreign, current, buildClusters).value;
      && (InClusterContext !in buildClusters ==> m[InClusterContext] == local.value)
      && (m[DefaultClusterAlias] == if buildClusters != map[] then buildClusters[DefaultClusterAlias] else local.value)
  {
    MergeFollowsPrecedence(local, foreign, current, buildClusters, InClusterContext);
    MergeFollowsPrecedence(local, foreign, current, buildClusters, DefaultClusterAlias);
  }

  /** Without a local config, in-cluster is the current foreign context; default is the
      explicit foreign `default` when there is one, and the current context otherwise. */
  lemma ForeignOnlyUsesCurrentContext<C>(foreign: map<string, C>, current: string,
                                         buildClusters: map<string, C>)
    requires MergeConfigs(None, foreign, current, buildClusters).Ok?
    ensures current != "" && current in foreign && buildClusters == map[]
    ensures var m := MergeConfigs(None, foreign, current, buildClusters).value;
      && m[InClusterContext] == foreign[current]
      && m[DefaultClusterAlias]
         == if DefaultClusterAlias in foreign then foreign[DefaultClusterAlias] else foreign[current]
  {
    MergeFollowsPrecedence(None, foreign, current, buildClusters, InClusterContext);
    MergeFollowsPrecedence(None, foreign, current, buildClusters, DefaultClusterAlias);
  }

  /** Every foreign context that is neither a reserved alias nor a build-cluster name appears
      in the result under its own name, unchanged; every build-cluster entry appears as given. */
  lemma ContextsPassThrough<C>(local: Option<C>, foreign: map<string, C>, current: string,
                               buildClusters: map<string, C>, name: string)
    requires MergeConfigs(local, foreign, current, buildClusters).Ok?
    ensures var m := MergeConfigs(local, foreign, current, buildClusters).value;
      && (name in buildClusters ==> m[name] == buildClusters[name])
      && (name in foreign && name !in buildClusters && name != InClusterContext && name != DefaultClusterAlias ==>
            m[name] == foreign[name])
  {
    MergeFollowsPrecedence(local, foreign, current, buildClusters, name);
  }

  /** Conversely, a map that holds exactly the keys of a merge and binds each of them as the
      precedence table says is the result of that merge. */
  lemma MergeIsDeterminedByPrecedence<C>(local: Option<C>, foreign: map<string, C>, current: string,
                                         buildClusters: map<string, C>, expected: map<string, C>)
    requires Admissible(local, foreign, current, buildClusters)
    requires expected.Keys == foreign.Keys + buildClusters.Keys + {InClusterContext, DefaultClusterAlias}
    requires forall alias | alias in expected ::
               Binding(local, foreign, current, buildClusters, alias) == Some(expected[alias])
    ensures MergeConfigs(local, foreign, current, buildClusters) == Ok(expected)
  {
    MergeSucceedsIffAdmissible(local, foreign, current, buildClusters);
    var m := MergeConfigs(local, foreign, current, buildClusters).value;
    forall alias | alias in m ensures m[alias] == expected[alias] {
      MergeFollowsPrecedence(local, foreign, current, buildClusters, alias);
    }
    assert m.Keys == expected.Keys;
    assert m == expected;
  }

  /** Build clusters are an overlay: the merge with them is the merge without them,
      with every build-cluster entry written over it. */
  lemma BuildClustersOverlay<C>(local: Option<C>, foreign: map<string, C>, current: string,
                                buildClusters: map<string, C>)
    requires MergeConfigs(local, foreign, current, buildClusters).Ok?
    ensures MergeConfigs(local, foreign, current, map[]).Ok?
    ensures MergeConfigs(local, foreign, current, buildClusters).value
            == MergeConfigs(local, foreign, current, map[]).value + buildClusters
  {
  }
}
