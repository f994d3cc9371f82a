/** The case table of TestMergeConfigs, one lemma per row, each stating the outcome the row
    expects of mergeConfigs. The test compares whole maps, so each successful row is stated as
    equality with the expected map, which also rules out any extra alias. Successful rows are
    proved from the precedence table (ClusterConfig.Binding), not by unfolding the merge. */
module MergeConfigsCases {
  import opened ClusterConfig

  /** The one field of a client config the test table sets. */
  datatype RestConfig = RestConfig(username: string)

  /** fakeConfig(u): a config told apart from the others only by its user name. */
  function FakeConfig(u: string): (c: RestConfig)
    ensures c.username == u
  {
    RestConfig(u)
  }

  /** "require at least one cluster": nothing configured at all. */
  lemma RequireAtLeastOneCluster()
    ensures MergeConfigs<RestConfig>(None, map[], "", map[])
            == Err(NoClusterConfigured)
  {
  }

  /** "only local cluster": the local config under both reserved aliases, and nothing else. */
  lemma OnlyLocalCluster()
    ensures MergeConfigs<RestConfig>(Some(FakeConfig("local")), map[], "", map[])
            == Ok(map[InClusterContext := FakeConfig("local"),
                      DefaultClusterAlias := FakeConfig("local")])
  {
    MergeIsDeterminedByPrecedence(Some(FakeConfig("local")), map[], "", map[],
      map[InClusterContext := FakeConfig("local"),
          DefaultClusterAlias := FakeConfig("local")]);
  }

  /** "fail buildClusters without local". */
  lemma FailBuildClustersWithoutLocal()
    ensures MergeConfigs<RestConfig>(None, map[], "", map[DefaultClusterAlias := FakeConfig("default")])
            == Err(BuildClustersRequireLocal)
  {
    assert DefaultClusterAlias in map[DefaultClusterAlias := FakeConfig("default")];
  }

  /** "fail buildClusters without a default context", although a local config is present. */
  lemma FailBuildClustersWithoutDefault()
    ensures MergeConfigs<RestConfig>(Some(FakeConfig("local")), map[], "", map["random-context" := FakeConfig("random")])
            == Err(BuildClustersLackDefault)
  {
    assert "random-context" in map["random-context" := FakeConfig("random")];
  }

  /** "accept local + buildCluster with default": in-cluster stays local, default comes from
      the build clusters. */
  lemma AcceptLocalAndBuildClusterWithDefault()
    ensures MergeConfigs<RestConfig>(Some(FakeConfig("local")), map[], "", map[DefaultClusterAlias := FakeConfig("default")])
            == Ok(map[InClusterContext := FakeConfig("local"),
                      DefaultClusterAlias := FakeConfig("default")])
  {
    MergeIsDeterminedByPrecedence(Some(FakeConfig("local")), map[], "", map[DefaultClusterAlias := FakeConfig("default")],
      map[InClusterContext := FakeConfig("local"),
          DefaultClusterAlias := FakeConfig("default")]);
  }

  /** "foreign without local uses current as default", and the foreign context stays under
      its own name. */
  lemma ForeignWithoutLocalUsesCurrentAsDefault()
    ensures MergeConfigs<RestConfig>(None, map["current-context" := FakeConfig("current")], "current-context", map[])
            == Ok(map[InClusterContext := FakeConfig("current"),
                      DefaultClusterAlias := FakeConfig("current"),
                      "current-context" := FakeConfig("current")])
  {
    MergeIsDeterminedByPrecedence(None, map["current-context" := FakeConfig("current")], "current-context", map[],
      map[InClusterContext := FakeConfig("current"),
          DefaultClusterAlias := FakeConfig("current"),
          "current-context" := FakeConfig("current")]);
  }

  /** "reject only foreign without a current context", even though foreign has a `default`. */
  lemma RejectOnlyForeignWithoutCurrentContext()
    ensures MergeConfigs<RestConfig>(None, map[DefaultClusterAlias := FakeConfig("default")], "", map[])
            == Err(CurrentContextRequired)
  {
    assert DefaultClusterAlias in map[DefaultClusterAlias := FakeConfig("default")];
  }

  /** "accept only foreign with default": the explicit foreign default is kept, in-cluster is
      the current context. */
  lemma AcceptOnlyForeignWithDefault()
    ensures MergeConfigs<RestConfig>(None, map[DefaultClusterAlias := FakeConfig("default"), "random-context" := FakeConfig("random")], "random-context", map[])
            == Ok(map[InClusterContext := FakeConfig("random"),
                      DefaultClusterAlias := FakeConfig("default"),
                      "random-context" := FakeConfig("random")])
  {
    MergeIsDeterminedByPrecedence(None, map[DefaultClusterAlias := FakeConfig("default"), "random-context" := FakeConfig("random")], "random-context", map[],
      map[InClusterContext := FakeConfig("random"),
          DefaultClusterAlias := FakeConfig("default"),
          "random-context" := FakeConfig("random")]);
  }

  /** "accept local and foreign, using local for default". */
  lemma AcceptLocalAndForeignUsingLocalForDefault()
    ensures MergeConfigs<RestConfig>(Some(FakeConfig("local")), map["random-context" := FakeConfig("random")], "random-context", map[])
            == Ok(map[InClusterContext := FakeConfig("local"),
                      DefaultClusterAlias := FakeConfig("local"),
                      "random-context" := FakeConfig("random")])
  {
    MergeIsDeterminedByPrecedence(Some(FakeConfig("local")), map["random-context" := FakeConfig("random")], "random-context", map[],
      map[InClusterContext := FakeConfig("local"),
          DefaultClusterAlias := FakeConfig("local"),
          "random-context" := FakeConfig("random")]);
  }

  /** "merge local, foreign, buildClusters": local keeps in-cluster, the build clusters supply
      default and add their own entries, the foreign context passes through. */
  lemma MergeLocalForeignBuildClusters()
    ensures MergeConfigs<RestConfig>(Some(FakeConfig("local")), map["random-context" := FakeConfig("random")], "random-context", map[DefaultClusterAlias := FakeConfig("default"), "other-build" := FakeConfig("other-build")])
            == Ok(map[InClusterContext := FakeConfig("local"),
                      DefaultClusterAlias := FakeConfig("default"),
                      "random-context" := FakeConfig("random"),
                      "other-build" := FakeConfig("other-build")])
  {
    MergeIsDeterminedByPrecedence(Some(FakeConfig("local")), map["random-context" := FakeConfig("random")], "random-context", map[DefaultClusterAlias := FakeConfig("default"), "other-build" := FakeConfig("other-build")],
      map[InClusterContext := FakeConfig("local"),
          DefaultClusterAlias := FakeConfig("default"),
          "random-context" := FakeConfig("random"),
          "other-build" := FakeConfig("other-build")]);
  }
}
