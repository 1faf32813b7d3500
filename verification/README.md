# Kubernetes prompt segment — a Dafny model

This project models the Kubernetes segment of the powerline-go prompt
(`segment-kube.go`). The segment runs once per prompt render. It does four things:

- it builds the list of candidate kubeconfig paths: the `KUBECONFIG` entries,
  then `<home>/.kube/config`;
- it reads each path best-effort and merges the results;
- it looks up the current context and shortens its cluster name for GKE and EKS;
- it appends up to four segments: `kube-icon`, `kube-cluster`, `kube-context`
  and `kube-namespace`. Each is gated by a preference: an environment override
  parsed as a boolean, with a theme default as fallback.

The model is a pure function from the environment (a map), the home directory,
the per-path outcome of reading a file (a map from path to decoded
configuration), the two shortening flags and the theme. It returns the ordered
list of appended segments.

Modules, in dependency order:

- `Wrappers`: `Option`.
- `Strings`: Go's `strings.Split` and `strings.Join` for a one-character
  separator. Includes the round trip between them and splitting around a separator.
- `Paths`: `path.Clean` and `path.Join`, lexical and with slash separators.
  Go's `path` package uses slashes on every platform, so a backslash in a home
  directory is ordinary text, in the model as in the code. Includes the default
  path `path.Join(home, ".kube", "config")`.
- `Preference`: the environment, `strconv.ParseBool`'s literal sets, and `getPreference`.
- `Kube`: the `KubeContext` and `KubeConfig` records, `readKubeConfig` as an
  optional result, and the merge loop. The loop is modelled as a left fold and
  proved equal to reference definitions.
- `Arn`: the EKS ARN pattern as a hand-written matcher. It is proved sound and
  complete against a description of the pattern's language.
- `Shorten`: GKE and EKS shortening, and their composition.
- `Locator`: the candidate path list.
- `Segments`: the context lookup, the emission, and the whole `segmentKube`.
- `Scenarios`: worked examples on concrete inputs.

The context segment is gated by `K8S_SHOW_CONTEXT` and falls back to the
theme's `KubeShowNamespace` default (segment-kube.go line 123). There is no
context default of its own (`Segments.ContextFollowsNamespaceDefault`). Empty
pieces of `KUBECONFIG` are kept as candidate paths, as `strings.Split` keeps them.

## Model

| member | source | states |
|---|---|---|
| Strings.Split | segment-kube.go:63 | The pieces number one more than the separators. No piece contains the separator. Joining the pieces with the separator gives back the input, so empty pieces are kept. |
| Strings.SplitJoin | segment-kube.go:93-95 | Splitting undoes joining for any non-empty list of separator-free parts. Split and Join are therefore inverse on these lists. |
| Strings.SplitAround | segment-kube.go:63 | Splitting at one occurrence of the separator splits the text on each side independently. |
| Paths.PathJoinBelowDir | segment-kube.go:63 | `path.Join(dir, a, b)` for two ordinary names is `a/b` below the cleaned directory, for every directory: relative for an empty one, `/a/b` below the root, `Clean(dir)/a/b` otherwise. |
| Paths.DefaultConfigPathInHome | segment-kube.go:63 | The default kubeconfig path is `.kube/config` below the cleaned home directory, whatever the home directory is. |
| Locator.ConfigPaths | segment-kube.go:63 | The path list has `KUBECONFIG`'s colon count plus two entries. The last entry is the default path. The others are colon-free and join back to the variable's value. An unset variable gives exactly `["", default]`. |
| Locator.ConfigPathsUnique | segment-kube.go:63 | Any colon-free list that joins to the variable's value is exactly the entry part of the path list. |
| Preference.ParseBool | segment-kube.go:148 | Parsing gives true exactly on `1 t T TRUE true True`, false exactly on `0 f F FALSE false False`, and fails on every other string. |
| Preference.GetPreference | segment-kube.go:146-153 | An unset variable gives the fallback. A set variable whose value parses gives the parsed value, whatever the fallback. A set variable that does not parse gives the fallback. |
| Preference.GetPreferenceLiterals | segment-kube.go:146-153 | A set variable holding a true literal gives true, and one holding a false literal gives false. An unset variable or any other value gives exactly the fallback. |
| Kube.Merge | segment-kube.go:64-73 | The merge loop's contexts are the in-order concatenation of the contexts of the successful reads only. Its current context is the first non-empty current context among successful reads. |
| Kube.FirstCurrentContextIsFirst | segment-kube.go:69-71 | The merged current context is empty exactly when no successful read names one. Otherwise a successful read names it, and every successful read before that one names none. |
| Kube.MergeAllFailed | segment-kube.go:64-73 | When every read fails, the merge is the empty configuration: no contexts and `""`. |
| Kube.MergeNeverOverwrites | segment-kube.go:65-73 | Reading more files never changes a current context already found, and only appends contexts after those already merged. |
| Arn.ParseArn | segment-kube.go:101-104 | A match yields parts that are well-formed and render back to exactly the input. The parts are a non-empty `[[:alnum:]-]` region, a non-empty digit account, and a newline-free name. |
| Arn.ParseArnComplete | segment-kube.go:101-104 | Every well-formed ARN matches, and its capture is exactly its own name. |
| Arn.ParseArnIffWellFormed | segment-kube.go:101-104 | The matcher returns given parts if and only if they are well-formed and render to the input. |
| Arn.TakeRunExact | segment-kube.go:101 | A non-empty run of a character class, followed by a stop character outside the class, is matched exactly. The run neither stops early nor runs past the stop. |
| Shorten.ShortenGke | segment-kube.go:92-97 | The cluster changes if and only if the flag is on, it starts with `gke` and it has at least three `_`. The result is then the suffix after the third `_`: the prefix it drops holds exactly three `_` and ends in one. |
| Shorten.DropThreePieces | segment-kube.go:93-95 | A string with at least three separators is its first three pieces, each followed by the separator, and then the remaining pieces joined. The dropped prefix holds exactly three separators. |
| Shorten.ArnClusterName | segment-kube.go:101-105 | A name that no well-formed EKS ARN renders to is returned unchanged. Any result is a suffix of the name: the capture after `cluster/` or the whole name. |
| Shorten.ShortenEks | segment-kube.go:101-106 | With the flag off, or on a name that is no well-formed EKS ARN, the cluster is unchanged. The result is always a suffix of the input. |
| Shorten.ShortenEksOnArn | segment-kube.go:101-106 | A well-formed ARN shortens to its cluster name when the flag is on, and is unchanged when it is off. |
| Shorten.DisplayCluster | segment-kube.go:92-106 | The body applies EKS shortening to GKE's output, in the source's order. The contract states that the displayed cluster is a suffix of the configured one. |
| Segments.FirstMatch | segment-kube.go:80-87 | The result is the index of a context with the name, and no earlier context has that name. None means no context has the name. |
| Segments.LookupFirst | segment-kube.go:80-87 | Cluster, namespace and user come from the first context with the current name, even when later contexts share the name. |
| Segments.LookupNone | segment-kube.go:76-87 | When no context has the current name, cluster, namespace and user are all empty. |
| Segments.ContextContent | segment-kube.go:124-127 | The context text always ends with the context name. It differs from the name exactly when the user is set, differs from the name and is to be shown, and it is then `user@context`. |
| Segments.Assemble | segment-kube.go:108-142 | The icon followed by the three gated appends is in emission order and starts with the icon. Each gated segment is present exactly when its condition holds, and is then the given segment. |
| Segments.InOrderBounds | segment-kube.go:108-142 | Segments in emission order form an ordered subsequence of the four keys: each key appears at most once, and there are at most four segments. |
| Segments.Emit | segment-kube.go:75-142 | No segment without a current context, else the icon first. Cluster appears exactly when the shortened cluster is non-empty and K8S_SHOW_CLUSTER or its default allows it. Context appears exactly when K8S_SHOW_CONTEXT or the namespace default allows it. Namespace appears exactly when non-empty and allowed. Each has its text and colours. |
| Segments.ContextFollowsNamespaceDefault | segment-kube.go:123 | Without a K8S_SHOW_CONTEXT override, the context segment is shown exactly when the theme's namespace default is true. |
| Segments.SegmentKube | segment-kube.go:62-144 | The whole segment's output is in emission order, so it has at most four segments. |
| Segments.SegmentKubeNoFiles | segment-kube.go:62-75 | When no candidate path is readable, no segment is emitted. |
| Scenarios.GkeFourPieces | segment-kube.go:92-97 | A `gke` name of four `_` pieces shortens to its last piece. |
| Scenarios.GkeThreePiecesExample | segment-kube.go:94 | `gke_a_b` has only three pieces and is left unchanged. |
| Scenarios.EmitAllShown | segment-kube.go:108-142 | With a current context, a non-empty displayed cluster and namespace, and every preference on, the output is exactly four segments: icon, cluster, context text and namespace, each with its theme colours. |
| Scenarios.EmitFullExample | segment-kube.go:75-142 | Current context `prod`, bound to cluster `gke_p_z_cluster-01`, namespace `default` and user `alice`, with everything shown, gives: icon, `cluster-01`, `alice@prod`, `default`. |
| Scenarios.EmitUnknownContextExample | segment-kube.go:75-133 | A current context with no matching entry gives the icon and the bare context name only. |

## Left out

- Kube.ReadKubeConfig: file access, `filepath.Abs` and YAML decoding are I/O or a foreign library. A map from path to decoded configuration stands for all three. A path is absent when any step fails, and is keyed by the path as listed. In particular the model does not know that the empty entry resolves to the working directory and therefore never reads.
- Only the fields the segment reads are modelled: `contexts`, each with its `name` and the `cluster`, `namespace` and `user` of its `context`, and `current-context`. Go's `KubeConfig` declares no others, so the rest of a kubeconfig document is ignored. Decoding errors are indistinguishable from read errors.
- `homePath` is left out: it reads `HOME`, or `USERPROFILE` on Windows, and the model takes the home directory as a parameter.
- `os.Getenv` and `os.LookupEnv` become lookups in an environment map.
- `regexp` is left out. Its engine is replaced by a hand-written matcher for the one pattern used. Characters are Dafny characters, not UTF-8 bytes, and `[[:alnum:]]` and `[[:digit:]]` are the ASCII classes.
- Rendering is left out. `appendSegment`, the powerline pipeline and the glyph's on-screen encoding are not modelled: the output is the ordered list of appended `(key, content, foreground, background)` records.
- Theme colours are opaque numbers from 0 to 255.
