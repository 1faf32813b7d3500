/** The Kubernetes prompt segment: the active context is looked up in
    the merged configuration, its cluster name shortened, and up to four
    segments emitted in a fixed order, each gated by a preference. */
module Segments {
  import opened Wrappers
  import opened Preference
  import opened Kube
  import opened Shorten
  import opened Locator

  /** A terminal colour number of the theme. */
  newtype Color = x: int | 0 <= x < 256

  /** The theme fields the segment reads: the visibility defaults and a
      colour pair per segment. */
  datatype Theme = Theme(
    kubeShowCluster: bool, kubeShowNamespace: bool, kubeShowUser: bool,
    kubeIconFg: Color, kubeIconBg: Color,
    kubeClusterFg: Color, kubeClusterBg: Color,
    kubeContextFg: Color, kubeContextBg: Color,
    kubeNamespaceFg: Color, kubeNamespaceBg: Color)

  /** The command-line flags the segment reads. */
  datatype Args = Args(shortenGkeNames: bool, shortenEksNames: bool)

  /** The four keys the segment appends under. */
  datatype SegmentKey = IconKey | ClusterKey | ContextKey | NamespaceKey {

    /** The key's name in the segment registry. */
    function Name(): string
    {
      match this
      case IconKey => "kube-icon"
      case ClusterKey => "kube-cluster"
      case ContextKey => "kube-context"
      case NamespaceKey => "kube-namespace"
    }

    /** Position of the key in the order segments are appended in. */
    function Rank(): nat
    {
      match this
      case IconKey => 0
      case ClusterKey => 1
      case ContextKey => 2
      case NamespaceKey => 3
    }
  }

  /** One appended segment: the key it is appended under, its text and colours. */
  datatype Segment = Segment(key: SegmentKey, content: string, foreground: Color, background: Color)

  /** The Kubernetes helm glyph (U+2388). */
  const KubeIcon: string := "\U{2388}"

  /** What the active context binds; all empty when no context matches. */
  datatype Target = Target(cluster: string, namespace: string, user: string)

  /** Index of the first context with the given name. */
  function FirstMatch(contexts: seq<KubeContext>, name: string): (r: Option<nat>)
    ensures r.Some? ==> r.value < |contexts| && contexts[r.value].name == name
    ensures r.Some? ==> forall j :: 0 <= j < r.value ==> contexts[j].name != name
    ensures r.None? <==> forall j :: 0 <= j < |contexts| ==> contexts[j].name != name
    decreases |contexts|
  {
    if contexts == [] then None
    else if contexts[0].name == name then Some(0)
    else
      match FirstMatch(contexts[1..], name)
      case None => None
      case Some(i) => Some(i + 1)
  }

  /** The lookup loop: cluster, namespace and user of the first context
      named `name`, or three empty strings. */
  function Lookup(contexts: seq<KubeContext>, name: string): Target
  {
    match FirstMatch(contexts, name)
    case Some(i) => Target(contexts[i].cluster, contexts[i].namespace, contexts[i].user)
    case None => Target("", "", "")
  }

  /** The lookup takes the first matching context even when later
      contexts share its name, and yields empty fields when none matches. */
  lemma LookupFirst(contexts: seq<KubeContext>, name: string, i: nat)
    requires i < |contexts| && contexts[i].name == name
    requires forall j :: 0 <= j < i ==> contexts[j].name != name
    ensures Lookup(contexts, name) == Target(contexts[i].cluster, contexts[i].namespace, contexts[i].user)
  {
  }

  lemma LookupNone(contexts: seq<KubeContext>, name: string)
    requires forall j :: 0 <= j < |contexts| ==> contexts[j].name != name
    ensures Lookup(contexts, name) == Target("", "", "")
  {
  }

  /** Text of the context segment: the current context name, prefixed by
      `user@` exactly when the user is set, differs from the context name
      and is to be shown. */
  function ContextContent(current: string, user: string, showUser: bool): (r: string)
    ensures |r| >= |current| && r[|r| - |current|..] == current
    ensures r != current <==> user != "" && user != current && showUser
    ensures r != current ==> r == user + "@" + current
  {
    if user != "" && user != current && showUser then user + "@" + current else current
  }

  /** The segments are in emission order: ranks strictly increase. */
  predicate InOrder(segs: seq<Segment>)
  {
    forall i, j :: 0 <= i < j < |segs| ==> segs[i].key.Rank() < segs[j].key.Rank()
  }

  /** Some segment has the given key. */
  predicate HasKey(segs: seq<Segment>, key: SegmentKey)
  {
    exists i :: 0 <= i < |segs| && segs[i].key == key
  }

  /** A sequence in emission order is an ordered subsequence of the four
      keys: each key at most once, so at most four segments. */
  lemma {:induction false} InOrderBounds(segs: seq<Segment>)
    requires InOrder(segs)
    ensures |segs| <= 4
    ensures forall i, j :: 0 <= i < j < |segs| ==> segs[i].key != segs[j].key
  {
    if |segs| > 0 {
      RankAtLeastIndex(segs, |segs| - 1);
    }
  }

  lemma {:induction false} RankAtLeastIndex(segs: seq<Segment>, i: nat)
    requires InOrder(segs) && i < |segs|
    ensures segs[i].key.Rank() >= i
    decreases i
  {
    if i > 0 {
      RankAtLeastIndex(segs, i - 1);
    }
  }

  /** The segment list if `show`, else nothing. */
  function When(show: bool, seg: Segment): seq<Segment>
  {
    if show then [seg] else []
  }

  /** The segment with key `key` is present exactly when `show` holds,
      and is then `seg`. */
  predicate Gated(segs: seq<Segment>, key: SegmentKey, show: bool, seg: Segment)
  {
    && (HasKey(segs, key) <==> show)
    && (forall i :: 0 <= i < |segs| && segs[i].key == key ==> segs[i] == seg)
  }

  /** The icon followed by the three optional appends. Whatever the
      conditions, the result is in emission order, starts with the icon,
      and holds each gated segment exactly when its condition holds. */
  function Assemble(icon: Segment, showCl: bool, cl: Segment,
                    showCx: bool, cx: Segment, showNs: bool, ns: Segment): (segs: seq<Segment>)
    requires icon.key == IconKey && cl.key == ClusterKey && cx.key == ContextKey && ns.key == NamespaceKey
    ensures segs != [] && segs[0] == icon
    ensures InOrder(segs)
    ensures Gated(segs, ClusterKey, showCl, cl)
    ensures Gated(segs, ContextKey, showCx, cx)
    ensures Gated(segs, NamespaceKey, showNs, ns)
  {
    var segs := [icon] + When(showCl, cl) + When(showCx, cx) + When(showNs, ns);
    AppendsInOrder(icon, showCl, cl, showCx, cx, showNs, ns);
    AppendsGateCluster(icon, showCl, cl, showCx, cx, showNs, ns);
    AppendsGateContext(icon, showCl, cl, showCx, cx, showNs, ns);
    AppendsGateNamespace(icon, showCl, cl, showCx, cx, showNs, ns);
    segs
  }

  lemma AppendsInOrder(icon: Segment, showCl: bool, cl: Segment,
                       showCx: bool, cx: Segment, showNs: bool, ns: Segment)
    requires icon.key == IconKey && cl.key == ClusterKey && cx.key == ContextKey && ns.key == NamespaceKey
    ensures InOrder([icon] + When(showCl, cl) + When(showCx, cx) + When(showNs, ns))
  {
    var a := [icon] + When(showCl, cl);
    assert forall i :: 0 <= i < |a| ==> a[i].key.Rank() <= 1;
    var b := a + When(showCx, cx);
    assert forall i :: 0 <= i < |b| ==> b[i].key.Rank() <= 2 by {
      forall i | 0 <= i < |b| ensures b[i].key.Rank() <= 2 {
        if i < |a| { assert b[i] == a[i]; }
      }
    }
    assert InOrder(a);
    assert InOrder(b) by {
      forall i, j | 0 <= i < j < |b| ensures b[i].key.Rank() < b[j].key.Rank() {
        if j < |a| { assert b[i] == a[i] && b[j] == a[j]; }
        else { assert b[i] == a[i]; }
      }
    }
    var c := b + When(showNs, ns);
    assert InOrder(c) by {
      forall i, j | 0 <= i < j < |c| ensures c[i].key.Rank() < c[j].key.Rank() {
        if j < |b| { assert c[i] == b[i] && c[j] == b[j]; }
        else { assert c[i] == b[i]; }
      }
    }
  }

  lemma AppendsGateCluster(icon: Segment, showCl: bool, cl: Segment,
                           showCx: bool, cx: Segment, showNs: bool, ns: Segment)
    requires icon.key == IconKey && cl.key == ClusterKey && cx.key == ContextKey && ns.key == NamespaceKey
    ensures Gated([icon] + When(showCl, cl) + When(showCx, cx) + When(showNs, ns), ClusterKey, showCl, cl)
  {
    var a := [icon] + When(showCl, cl);
    var rest := When(showCx, cx) + When(showNs, ns);
    var segs := a + rest;
    assert segs == [icon] + When(showCl, cl) + When(showCx, cx) + When(showNs, ns);
    assert forall i :: 0 <= i < |rest| ==> rest[i].key != ClusterKey;
    assert forall i :: |a| <= i < |segs| ==> segs[i] == rest[i - |a|];
    assert showCl ==> segs[1] == cl;
  }

  lemma AppendsGateContext(icon: Segment, showCl: bool, cl: Segment,
                           showCx: bool, cx: Segment, showNs: bool, ns: Segment)
    requires icon.key == IconKey && cl.key == ClusterKey && cx.key == ContextKey && ns.key == NamespaceKey
    ensures Gated([icon] + When(showCl, cl) + When(showCx, cx) + When(showNs, ns), ContextKey, showCx, cx)
  {
    var a := [icon] + When(showCl, cl);
    var b := a + When(showCx, cx);
    var segs := b + When(showNs, ns);
    assert forall i :: 0 <= i < |a| ==> a[i].key != ContextKey;
    assert forall i :: 0 <= i < |a| ==> segs[i] == a[i];
    assert forall i :: |b| <= i < |segs| ==> segs[i] == ns;
    assert showCx ==> segs[|a|] == cx;
  }

  lemma AppendsGateNamespace(icon: Segment, showCl: bool, cl: Segment,
                             showCx: bool, cx: Segment, showNs: bool, ns: Segment)
    requires icon.key == IconKey && cl.key == ClusterKey && cx.key == ContextKey && ns.key == NamespaceKey
    ensures Gated([icon] + When(showCl, cl) + When(showCx, cx) + When(showNs, ns), NamespaceKey, showNs, ns)
  {
    var b := [icon] + When(showCl, cl) + When(showCx, cx);
    var segs := b + When(showNs, ns);
    assert forall i :: 0 <= i < |b| ==> b[i].key != NamespaceKey;
    assert forall i :: 0 <= i < |b| ==> segs[i] == b[i];
    assert showNs ==> segs[|b|] == ns;
  }

  /** The emission step of the segment, from the merged configuration:
      nothing without a current context; otherwise the icon first, then
      cluster, context and namespace, each present exactly when its value
      is non-empty (the context needs none) and its preference holds. */
  function Emit(config: KubeConfig, env: Env, args: Args, theme: Theme): (segs: seq<Segment>)
    ensures segs == [] <==> config.currentContext == ""
    ensures segs != [] ==> segs[0] == Segment(IconKey, KubeIcon, theme.kubeIconFg, theme.kubeIconBg)
    ensures InOrder(segs)
    ensures var current := config.currentContext;
            var t := Lookup(config.contexts, current);
            var cluster := DisplayCluster(t.cluster, args.shortenGkeNames, args.shortenEksNames);
            && Gated(segs, ClusterKey, current != "" && cluster != "" && GetPreference(env, K8sShowCluster, theme.kubeShowCluster),
                     Segment(ClusterKey, cluster, theme.kubeClusterFg, theme.kubeClusterBg))
            && Gated(segs, ContextKey, current != "" && GetPreference(env, K8sShowContext, theme.kubeShowNamespace),
                     Segment(ContextKey, ContextContent(current, t.user, GetPreference(env, K8sShowUser, theme.kubeShowUser)),
                             theme.kubeContextFg, theme.kubeContextBg))
            && Gated(segs, NamespaceKey, current != "" && t.namespace != "" && GetPreference(env, K8sShowNamespace, theme.kubeShowNamespace),
                     Segment(NamespaceKey, t.namespace, theme.kubeNamespaceFg, theme.kubeNamespaceBg))
  {
    var current := config.currentContext;
    if current == "" then []
    else
      var t := Lookup(config.contexts, current);
      var cluster := DisplayCluster(t.cluster, args.shortenGkeNames, args.shortenEksNames);
      Assemble(
        Segment(IconKey, KubeIcon, theme.kubeIconFg, theme.kubeIconBg),
        cluster != "" && GetPreference(env, K8sShowCluster, theme.kubeShowCluster),
        Segment(ClusterKey, cluster, theme.kubeClusterFg, theme.kubeClusterBg),
        GetPreference(env, K8sShowContext, theme.kubeShowNamespace),
        Segment(ContextKey, ContextContent(current, t.user, GetPreference(env, K8sShowUser, theme.kubeShowUser)),
                theme.kubeContextFg, theme.kubeContextBg),
        t.namespace != "" && GetPreference(env, K8sShowNamespace, theme.kubeShowNamespace),
        Segment(NamespaceKey, t.namespace, theme.kubeNamespaceFg, theme.kubeNamespaceBg))
  }

  /** The context segment has no theme default of its own: without a
      `K8S_SHOW_CONTEXT` override it follows the namespace default. */
  lemma ContextFollowsNamespaceDefault(config: KubeConfig, env: Env, args: Args, theme: Theme)
    requires config.currentContext != "" && K8sShowContext !in env
    ensures HasKey(Emit(config, env, args, theme), ContextKey) <==> theme.kubeShowNamespace
  {
  }

  /** `segmentKube`: locate the candidate files, read and merge them,
      and emit the segments of the current context. */
  function SegmentKube(env: Env, home: string, files: Files, args: Args, theme: Theme): (segs: seq<Segment>)
    ensures InOrder(segs) && |segs| <= 4
  {
    var segs := Emit(Merge(ReadAll(files, ConfigPaths(env, home))), env, args, theme);
    InOrderBounds(segs);
    segs
  }

  /** No candidate file readable: no segment at all. */
  lemma SegmentKubeNoFiles(env: Env, home: string, files: Files, args: Args, theme: Theme)
    requires forall p :: p in ConfigPaths(env, home) ==> p !in files
    ensures SegmentKube(env, home, files, args, theme) == []
  {
    var paths := ConfigPaths(env, home);
    var results := ReadAll(files, paths);
    assert forall i :: 0 <= i < |results| ==> results[i].None? by {
      forall i | 0 <= i < |results|
        ensures results[i].None?
      {
        assert paths[i] in paths;
      }
    }
    MergeAllFailed(results);
    assert Merge(results).currentContext == "";
  }
}
