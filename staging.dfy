/**
 * The build environment as an immutable value: a platform, a base and the
 * staged operations, in order. Nothing here executes; a terminal call such as
 * `.file(p)` becomes an artifact that names the container and the path.
 */
module Staging {
  import opened Wrappers

  /** `dag.container()` uses the engine's platform; `{ platform: ... }` pins one. */
  datatype Platform = EnginePlatform | Pinned(name: string)

  /** A cache volume is identified by its key alone. */
  type CacheVolume = string

  /** A secret is an opaque token. */
  datatype Secret = Secret(id: string)

  /** Where a container starts from. */
  datatype Base =
    | From(ref: string)
      // `dag.node().withPnpm().container()`, a container made by another module
    | NodeWithPnpm
      // `.build(context, { dockerfile })`: the engine builds the Dockerfile
    | DockerfileBuild(context: Artifact, dockerfile: Option<string>)
      // the value of a call the Go builder does not define; recorded, not interpreted
    | TransferredBinary(project: Container, name: string, dest: string)

  /** One staged call on a container. */
  datatype Op =
    | WithDirectory(path: string, dir: Artifact)
    | WithWorkdir(path: string)
    | WithMountedCache(path: string, cache: CacheVolume)
    | WithExec(args: seq<string>)
    | WithFile(path: string, file: Artifact)
    | WithEntrypoint(args: seq<string>)
    | WithRegistryAuth(address: string, username: string, secret: Secret)

  datatype Container = Container(platform: Platform, base: Base, ops: seq<Op>)

  /** Directories and files: handed in by the caller, empty, or extracted from a container. */
  datatype Artifact =
    | HostDir(id: string)
    | EmptyDir
    | FileAt(ctr: Container, path: string)

  /** Stages `more` after everything already staged on `c`; nothing earlier is lost. */
  function Staged(c: Container, more: seq<Op>): (r: Container)
    ensures r.platform == c.platform && r.base == c.base
    ensures |r.ops| == |c.ops| + |more|
    ensures r.ops[..|c.ops|] == c.ops && r.ops[|c.ops|..] == more
  {
    Container(c.platform, c.base, c.ops + more)
  }

  /**
   * The working directory both builders compute: `buildDir ? dir + buildDir : dir`.
   * The test on `buildDir` is redundant: the result is always the concatenation.
   */
  function Workdir(projectDir: string, buildDir: string): (w: string)
    ensures w == projectDir + buildDir
  {
    if buildDir != "" then projectDir + buildDir else projectDir
  }

  /** `s.slice(0, n)` in JavaScript: the first n characters, or all of a shorter string. */
  function Prefix(s: string, n: nat): (p: string)
    ensures |p| == if |s| < n then |s| else n
    ensures p <= s
  {
    if |s| <= n then s else s[..n]
  }

  /** Position of the first occurrence of `x` in `s`, if any. */
  function IndexOf<T(==)>(s: seq<T>, x: T): (r: Option<nat>)
    ensures r.Some? ==> r.value < |s| && s[r.value] == x && forall k :: 0 <= k < r.value ==> s[k] != x
    ensures r.None? ==> x !in s
  {
    if s == [] then None
    else if s[0] == x then Some(0)
    else match IndexOf(s[1..], x)
      case None => None
      case Some(i) => Some(i + 1)
  }

  /** `i` is the first position of `x` in `s` exactly when it holds `x` and nothing before it does. */
  lemma IndexOfAt<T>(s: seq<T>, x: T, i: nat)
    requires i < |s| && s[i] == x
    requires forall k :: 0 <= k < i ==> s[k] != x
    ensures IndexOf(s, x) == Some(i)
  {
  }

  /** In a sequence without repetitions, the first position of each element is its position. */
  lemma IndexOfDistinct<T>(s: seq<T>, i: nat)
    requires forall j, k :: 0 <= j < k < |s| ==> s[j] != s[k]
    requires i < |s|
    ensures IndexOf(s, s[i]) == Some(i)
  {
    IndexOfAt(s, s[i], i);
  }

  /** Two stages each at their first position, the earlier one first, are staged in that order. */
  lemma StagedBeforeAt(ops: seq<Op>, i: nat, j: nat)
    requires i < j < |ops|
    requires forall k :: 0 <= k < i ==> ops[k] != ops[i]
    requires forall k :: 0 <= k < j ==> ops[k] != ops[j]
    ensures StagedBefore(ops, ops[i], ops[j])
  {
    IndexOfAt(ops, ops[i], i);
    IndexOfAt(ops, ops[j], j);
  }

  /** Every occurrence of `b` in `ops` comes after the first occurrence of `a`. */
  predicate StagedBefore(ops: seq<Op>, a: Op, b: Op)
  {
    var i := IndexOf(ops, a);
    var j := IndexOf(ops, b);
    i.Some? && j.Some? && i.value < j.value
  }
}
