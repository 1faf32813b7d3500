/** The candidate configuration paths: the entries of `KUBECONFIG`,
    then the default file below the home directory. */
module Locator {
  import opened Strings
  import opened Paths
  import opened Preference

  const KubeconfigVar: string := "KUBECONFIG"

  /** `KUBECONFIG` split on `:`, empty pieces kept, then the default file
      `path.Join(home, ".kube", "config")`. The entries are exactly the colon-free pieces that join back to the
      variable's value, empty ones included; the default file comes last. */
  function ConfigPaths(env: Env, home: string): (paths: seq<string>)
    ensures |paths| == Count(Getenv(env, KubeconfigVar), ':') + 2
    ensures paths[|paths| - 1] == DefaultConfigPath(home)
    ensures forall i :: 0 <= i < |paths| - 1 ==> ':' !in paths[i]
    ensures Join(paths[..|paths| - 1], ':') == Getenv(env, KubeconfigVar)
    ensures KubeconfigVar !in env ==> paths == ["", DefaultConfigPath(home)]
  {
    var entries := Split(Getenv(env, KubeconfigVar), ':');
    assert (entries + [DefaultConfigPath(home)])[..|entries|] == entries;
    entries + [DefaultConfigPath(home)]
  }

  /** The entries of the path list are determined by the variable: any
      colon-free list joining to its value is the list. */
  lemma ConfigPathsUnique(env: Env, home: string, entries: seq<string>)
    requires entries != []
    requires forall i :: 0 <= i < |entries| ==> ':' !in entries[i]
    requires Join(entries, ':') == Getenv(env, KubeconfigVar)
    ensures ConfigPaths(env, home) == entries + [DefaultConfigPath(home)]
  {
    SplitJoin(entries, ':');
  }
}
