/** The cluster-configuration records, the best-effort reader and the
    merge of all candidate files into one configuration. */
module Kube {
  import opened Wrappers

  /** One named context: the cluster, namespace and user it binds. Go's
      `KubeContext` nests the three fields in an inner record; they are flat here. */
  datatype KubeContext = KubeContext(name: string, cluster: string, namespace: string, user: string)

  /** The part of a configuration file the segment reads. */
  datatype KubeConfig = KubeConfig(contexts: seq<KubeContext>, currentContext: string)

  const EmptyConfig: KubeConfig := KubeConfig([], "")

  /** The outcome of resolving, reading and decoding each path: a path is
      present with its decoded configuration exactly when all three steps
      succeed, and absent when any of them fails. */
  type Files = map<string, KubeConfig>

  /** `readKubeConfig` into a fresh record: the decoded file, or None
      when the path could not be resolved, read or decoded. */
  function ReadKubeConfig(files: Files, path: string): Option<KubeConfig>
  {
    if path in files then Some(files[path]) else None
  }

  /** One read result per candidate path, in path order. */
  function ReadAll(files: Files, paths: seq<string>): seq<Option<KubeConfig>>
  {
    seq(|paths|, i requires 0 <= i < |paths| => ReadKubeConfig(files, paths[i]))
  }

  /** Reference definition: the contexts of the successful results, file
      after file, each file's contexts in their own order. */
  function AllContexts(results: seq<Option<KubeConfig>>): seq<KubeContext>
  {
    if results == [] then []
    else (if results[0].Some? then results[0].value.contexts else []) + AllContexts(results[1..])
  }

  /** Reference definition: the current context of the first successful
      read that names one, or "" if none does. */
  function FirstCurrentContext(results: seq<Option<KubeConfig>>): string
  {
    if results == [] then ""
    else if results[0].Some? && results[0].value.currentContext != "" then results[0].value.currentContext
    else FirstCurrentContext(results[1..])
  }

  /** One iteration of the merge loop: a failed read changes nothing; a
      successful one appends its contexts and fills the current context
      only while it is still empty. */
  function MergeStep(acc: KubeConfig, read: Option<KubeConfig>): KubeConfig
  {
    match read
    case None => acc
    case Some(temp) =>
      KubeConfig(acc.contexts + temp.contexts,
                 if acc.currentContext == "" then temp.currentContext else acc.currentContext)
  }

  lemma {:induction false} AllContextsAppend(a: seq<Option<KubeConfig>>, b: seq<Option<KubeConfig>>)
    ensures AllContexts(a + b) == AllContexts(a) + AllContexts(b)
    decreases |a|
  {
    if a == [] {
      assert a + b == b;
    } else {
      assert (a + b)[1..] == a[1..] + b;
      AllContextsAppend(a[1..], b);
    }
  }

  lemma {:induction false} FirstCurrentContextAppend(a: seq<Option<KubeConfig>>, b: seq<Option<KubeConfig>>)
    ensures FirstCurrentContext(a + b) ==
              if FirstCurrentContext(a) != "" then FirstCurrentContext(a) else FirstCurrentContext(b)
    decreases |a|
  {
    if a == [] {
      assert a + b == b;
    } else {
      assert (a + b)[1..] == a[1..] + b;
      FirstCurrentContextAppend(a[1..], b);
    }
  }

  /** The merge loop over the read results in path order, starting from
      an empty configuration. Its result has the contexts of every
      successful read in order, and the first non-empty current context. */
  function Merge(results: seq<Option<KubeConfig>>): (config: KubeConfig)
    ensures config.contexts == AllContexts(results)
    ensures config.currentContext == FirstCurrentContext(results)
    decreases |results|
  {
    if results == [] then EmptyConfig
    else
      var front := results[..|results| - 1];
      var last := results[|results| - 1];
      assert results == front + [last];
      AllContextsAppend(front, [last]);
      FirstCurrentContextAppend(front, [last]);
      assert [last][1..] == [];
      MergeStep(Merge(front), last)
  }

  /** The merged current context is the current context of the first
      successful read that names one: every successful read before it
      names none, and it is "" exactly when no successful read names one. */
  lemma {:induction false} FirstCurrentContextIsFirst(results: seq<Option<KubeConfig>>)
    ensures FirstCurrentContext(results) == "" <==>
              forall i :: 0 <= i < |results| && results[i].Some? ==> results[i].value.currentContext == ""
    ensures FirstCurrentContext(results) != "" ==>
              exists i :: 0 <= i < |results| && results[i].Some? && results[i].value.currentContext == FirstCurrentContext(results)
                && forall j :: 0 <= j < i && results[j].Some? ==> results[j].value.currentContext == ""
    decreases |results|
  {
    if results != [] {
      FirstCurrentContextIsFirst(results[1..]);
      var c := FirstCurrentContext(results);
      if results[0].Some? && results[0].value.currentContext != "" {
        assert results[0].value.currentContext == c;
      } else {
        assert forall i :: 1 <= i < |results| ==> results[i] == results[1..][i - 1];
        if c != "" {
          var k :| 0 <= k < |results[1..]| && results[1..][k].Some? && results[1..][k].value.currentContext == c
                   && forall j :: 0 <= j < k && results[1..][j].Some? ==> results[1..][j].value.currentContext == "";
          assert results[k + 1] == results[1..][k];
        }
      }
    }
  }

  /** Every read failed: the merge is the empty configuration. */
  lemma {:induction false} MergeAllFailed(results: seq<Option<KubeConfig>>)
    ensures (forall i :: 0 <= i < |results| ==> results[i].None?) ==> Merge(results) == EmptyConfig
    decreases |results|
  {
    if results != [] && forall i :: 0 <= i < |results| ==> results[i].None? {
      MergeAllFailed(results[1..]);
      assert AllContexts(results) == AllContexts(results[1..]);
    }
  }

  /** Reading more files never overwrites a current context already found
      and only appends contexts after those already merged. */
  lemma MergeNeverOverwrites(a: seq<Option<KubeConfig>>, b: seq<Option<KubeConfig>>)
    ensures Merge(a).currentContext != "" ==> Merge(a + b).currentContext == Merge(a).currentContext
    ensures Merge(a + b).contexts == Merge(a).contexts + AllContexts(b)
  {
    AllContextsAppend(a, b);
    FirstCurrentContextAppend(a, b);
  }
}
