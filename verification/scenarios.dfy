/** Worked examples of the segment on concrete inputs. */
module Scenarios {
  import opened Strings
  import opened Shorten
  import opened Kube
  import opened Segments
  import opened Preference

  /** A GKE name of four pieces shortens to its last piece. */
  lemma GkeFourPieces(a: string, b: string, c: string, d: string)
    requires GkePrefix <= a
    requires '_' !in a && '_' !in b && '_' !in c && '_' !in d
    ensures ShortenGke(a + ['_'] + (b + ['_'] + (c + ['_'] + d)), true) == d
  {
    SplitWithoutSeparator(a, '_');
    SplitWithoutSeparator(b, '_');
    SplitWithoutSeparator(c, '_');
    SplitWithoutSeparator(d, '_');
    SplitAround(c, d, '_');
    SplitAround(b, c + ['_'] + d, '_');
    SplitAround(a, b + ['_'] + (c + ['_'] + d), '_');
    var s := a + ['_'] + (b + ['_'] + (c + ['_'] + d));
    assert GkePrefix <= s;
    assert Split(s, '_') == [a, b, c, d];
    assert Split(s, '_')[3..] == [d];
  }

  /** A GKE name with only three pieces is left as it is. */
  lemma GkeThreePiecesExample()
    ensures ShortenGke("gke_a_b", true) == "gke_a_b"
  {
    var s := "gke_a_b";
    assert s == "gke" + ['_'] + ("a" + ['_'] + "b");
    SplitWithoutSeparator("gke", '_');
    SplitWithoutSeparator("a", '_');
    SplitWithoutSeparator("b", '_');
    SplitAround("a", "b", '_');
    SplitAround("gke", "a" + ['_'] + "b", '_');
    assert Split(s, '_') == ["gke", "a", "b"];
  }

  /** A theme that shows everything, with some colours. */
  const ShowAll: Theme := Theme(true, true, true, 250, 33, 250, 33, 250, 33, 250, 33)

  /** With every value non-empty and every preference on, all four
      segments are emitted. */
  lemma EmitAllShown(config: KubeConfig, env: Env, args: Args, theme: Theme,
                     t: Target, cluster: string, content: string)
    requires config.currentContext != ""
    requires Lookup(config.contexts, config.currentContext) == t
    requires DisplayCluster(t.cluster, args.shortenGkeNames, args.shortenEksNames) == cluster
    requires cluster != "" && t.namespace != ""
    requires GetPreference(env, K8sShowCluster, theme.kubeShowCluster)
    requires GetPreference(env, K8sShowContext, theme.kubeShowNamespace)
    requires GetPreference(env, K8sShowNamespace, theme.kubeShowNamespace)
    requires ContextContent(config.currentContext, t.user, GetPreference(env, K8sShowUser, theme.kubeShowUser)) == content
    ensures Emit(config, env, args, theme)
         == [Segment(IconKey, KubeIcon, theme.kubeIconFg, theme.kubeIconBg),
             Segment(ClusterKey, cluster, theme.kubeClusterFg, theme.kubeClusterBg),
             Segment(ContextKey, content, theme.kubeContextFg, theme.kubeContextBg),
             Segment(NamespaceKey, t.namespace, theme.kubeNamespaceFg, theme.kubeNamespaceBg)]
  {
    AssembleAll(Segment(IconKey, KubeIcon, theme.kubeIconFg, theme.kubeIconBg),
                Segment(ClusterKey, cluster, theme.kubeClusterFg, theme.kubeClusterBg),
                Segment(ContextKey, content, theme.kubeContextFg, theme.kubeContextBg),
                Segment(NamespaceKey, t.namespace, theme.kubeNamespaceFg, theme.kubeNamespaceBg));
  }

  /** The current context found: icon, shortened cluster, `user@context`
      and namespace, in that order. */
  lemma EmitFullExample()
    ensures Emit(KubeConfig([KubeContext("prod", "gke_p_z_cluster-01", "default", "alice")], "prod"),
                 map[], Args(true, false), ShowAll)
         == [Segment(IconKey, KubeIcon, 250, 33), Segment(ClusterKey, "cluster-01", 250, 33),
             Segment(ContextKey, "alice@prod", 250, 33), Segment(NamespaceKey, "default", 250, 33)]
  {
    ClusterExample();
    LookupExample();
    ContextExample();
    PreferencesExample();
    EmitAllShown(KubeConfig([KubeContext("prod", "gke_p_z_cluster-01", "default", "alice")], "prod"),
                 map[], Args(true, false), ShowAll,
                 Target("gke_p_z_cluster-01", "default", "alice"), "cluster-01", "alice@prod");
  }

  lemma AssembleAll(icon: Segment, cl: Segment, cx: Segment, ns: Segment)
    requires icon.key == IconKey && cl.key == ClusterKey && cx.key == ContextKey && ns.key == NamespaceKey
    ensures Assemble(icon, true, cl, true, cx, true, ns) == [icon, cl, cx, ns]
  {
  }

  lemma ClusterExample()
    ensures DisplayCluster("gke_p_z_cluster-01", true, false) == "cluster-01"
  {
    assert "gke_p_z_cluster-01" == "gke" + ['_'] + ("p" + ['_'] + ("z" + ['_'] + "cluster-01"));
    GkeFourPieces("gke", "p", "z", "cluster-01");
  }

  lemma LookupExample()
    ensures Lookup([KubeContext("prod", "gke_p_z_cluster-01", "default", "alice")], "prod")
         == Target("gke_p_z_cluster-01", "default", "alice")
  {
  }

  lemma PreferencesExample()
    ensures GetPreference(map[], K8sShowCluster, true) && GetPreference(map[], K8sShowContext, true)
    ensures GetPreference(map[], K8sShowNamespace, true) && GetPreference(map[], K8sShowUser, true)
  {
  }

  lemma ContextExample()
    ensures ContextContent("prod", "alice", true) == "alice@prod"
  {
    assert "alice" + "@" + "prod" == "alice@prod";
  }

  /** The current context names no context: only the icon and the bare
      context name. */
  lemma EmitUnknownContextExample()
    ensures Emit(KubeConfig([], "prod"), map[], Args(true, true), ShowAll)
         == [Segment(IconKey, KubeIcon, 250, 33), Segment(ContextKey, "prod", 250, 33)]
  {
  }
}
