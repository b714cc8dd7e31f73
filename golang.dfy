/**
 * The Go builder: a toolchain container whose `ctr` is extended in place by
 * `Setup`, and from which `Build` derives a longer chain without storing it.
 */
module Golang {
  import opened Staging

  const GoImage := "golang:1.24"
  const GoProjectDir := "/go/src/"
  const BuildCacheKey: CacheVolume := "go-build-cache"
  const PackageCacheKey: CacheVolume := "go-pkg-cache"
  const PackageCachePath := "/go/pkg/mod"
  const BuildCachePath := "/root/.cache/go-build"
  const ModDownload := ["go", "mod", "download"]

  /** The argv of `go build -o output mainFile`. */
  function GoBuildArgs(output: string, mainFile: string): seq<string>
  {
    ["go", "build", "-o", output, mainFile]
  }

  /** The container a fresh project starts from. */
  function GoBase(): Container
  {
    Container(EnginePlatform, From(GoImage), [])
  }

  /** What `setup(buildDir)` stages: source, working directory, module cache, download. */
  function SetupStages(projectDir: string, source: Artifact, buildDir: string, packageCache: CacheVolume): seq<Op>
  {
    [ WithDirectory(projectDir, source),
      WithWorkdir(Workdir(projectDir, buildDir)),
      WithMountedCache(PackageCachePath, packageCache),
      WithExec(ModDownload) ]
  }

  /** What `build(output, mainFile)` stages after setup: the object cache, then the compile. */
  function BuildStages(buildCache: CacheVolume, output: string, mainFile: string): seq<Op>
  {
    [ WithMountedCache(BuildCachePath, buildCache),
      WithExec(GoBuildArgs(output, mainFile)) ]
  }

  /** The path `build` extracts: under the project root, whatever the build directory. */
  function OutputPath(output: string): string
  {
    GoProjectDir + output
  }

  class GolangProject {
    const source: Artifact
    var ctr: Container
    const buildCache: CacheVolume
    const packageCache: CacheVolume
    const projectDir: string

    constructor(source: Artifact)
      ensures this.source == source
      ensures ctr == GoBase() && ctr.base == From("golang:1.24") && ctr.ops == []
      ensures buildCache == "go-build-cache" && packageCache == "go-pkg-cache"
      ensures buildCache != packageCache
      ensures projectDir == "/go/src/"
    {
      this.source := source;
      this.projectDir := GoProjectDir;
      this.ctr := GoBase();
      this.buildCache := BuildCacheKey;
      this.packageCache := PackageCacheKey;
    }

    /** Appends the setup stages to `ctr`, keeps what was there, and returns this object. */
    method Setup(buildDir: string) returns (self: GolangProject)
      modifies this`ctr
      ensures self == this
      ensures ctr.platform == old(ctr).platform && ctr.base == old(ctr).base
      ensures ctr.ops == old(ctr).ops + SetupStages(projectDir, source, buildDir, packageCache)
      ensures ctr.ops[|old(ctr).ops| + 1] == WithWorkdir(projectDir + buildDir)
    {
      ctr := Staged(ctr, SetupStages(projectDir, source, buildDir, packageCache));
      self := this;
    }

    /**
     * The compiled binary: `ctr` plus the object-cache mount and the compile,
     * extracted at `/go/src/<output>`. Being a function, it leaves `ctr` alone.
     */
    function Build(output: string, mainFile: string): (f: Artifact)
      reads this
      ensures f.FileAt? && f.path == "/go/src/" + output
      ensures f.ctr.platform == ctr.platform && f.ctr.base == ctr.base
      ensures f.ctr.ops == ctr.ops + BuildStages(buildCache, output, mainFile)
    {
      FileAt(Staged(ctr, BuildStages(buildCache, output, mainFile)), "/go/src/" + output)
    }

    /** Tests are not implemented: an empty directory, whatever the argument. */
    function Test(output: string): (d: Artifact)
      ensures d == EmptyDir
    {
      EmptyDir
    }

    /** The runtime image: `alpine` with the binary at `/bin/<output>` as entrypoint. */
    function OCIImage(output: string, mainFile: string): (img: Container)
      reads this
      ensures img.platform == EnginePlatform && img.base == From("alpine")
      ensures img.ops == [ WithFile("/bin/" + output, Build(output, mainFile)),
                           WithEntrypoint(["/bin/" + output]) ]
    {
      Container(EnginePlatform, From("alpine"),
        [ WithFile("/bin/" + output, Build(output, mainFile)),
          WithEntrypoint(["/bin/" + output]) ])
    }

    /** One ECR push per tag, in the order of `tags`, all of the same image. */
    function BuildDockerImage(imageName: string, output: string, mainFile: string, awsCreds: Artifact,
                              region: string, accountID: string, tags: seq<string>): (pushes: seq<EcrPush>)
      reads this
      ensures |pushes| == |tags|
      ensures forall i :: 0 <= i < |tags| ==>
        pushes[i] == EcrPush(awsCreds, region, accountID, imageName + ":" + tags[i], OCIImage(output, mainFile))
    {
      if tags == [] then []
      else
        BuildDockerImage(imageName, output, mainFile, awsCreds, region, accountID, tags[..|tags| - 1])
        + [EcrPush(awsCreds, region, accountID, imageName + ":" + tags[|tags| - 1], OCIImage(output, mainFile))]
    }
  }

  /** A push through the AWS module: credentials, region, account, reference, image. */
  datatype EcrPush = EcrPush(awsCreds: Artifact, region: string, accountID: string, reference: string, image: Container)

  /** The container after a fresh project's `setup(buildDir)`. */
  function SetupContainer(source: Artifact, buildDir: string): Container
  {
    Staged(GoBase(), SetupStages(GoProjectDir, source, buildDir, PackageCacheKey))
  }

  /** The file a fresh project gives after `setup(buildDir)` then `build(output, mainFile)`. */
  function ProjectFile(source: Artifact, buildDir: string, output: string, mainFile: string): Artifact
  {
    FileAt(Staged(SetupContainer(source, buildDir), BuildStages(BuildCacheKey, output, mainFile)), OutputPath(output))
  }

  /**
   * The six stages of a fresh project's plan, in order: exactly two of them
   * mount caches, at different paths and under different keys.
   */
  lemma GoPlanStages(source: Artifact, buildDir: string, output: string, mainFile: string)
    ensures var ops := ProjectFile(source, buildDir, output, mainFile).ctr.ops;
      && ops == [ WithDirectory(GoProjectDir, source), WithWorkdir(GoProjectDir + buildDir),
                  WithMountedCache(PackageCachePath, PackageCacheKey), WithExec(ModDownload),
                  WithMountedCache(BuildCachePath, BuildCacheKey), WithExec(GoBuildArgs(output, mainFile)) ]
      && (forall i :: 0 <= i < |ops| && ops[i].WithMountedCache? ==> i == 2 || i == 4)
      && ops[2].path != ops[4].path && ops[2].cache != ops[4].cache
  {
    assert |PackageCachePath| != |BuildCachePath|;
    assert |PackageCacheKey| != |BuildCacheKey|;
  }

  /**
   * In the staged plan of a fresh project, the module cache is mounted before
   * `go mod download`, which runs before the object cache is mounted and the
   * binary is compiled.
   */
  lemma GoPlanOrder(source: Artifact, buildDir: string, output: string, mainFile: string)
    ensures var ops := ProjectFile(source, buildDir, output, mainFile).ctr.ops;
      && StagedBefore(ops, WithMountedCache(PackageCachePath, PackageCacheKey), WithExec(ModDownload))
      && StagedBefore(ops, WithExec(ModDownload), WithMountedCache(BuildCachePath, BuildCacheKey))
      && StagedBefore(ops, WithExec(ModDownload), WithExec(GoBuildArgs(output, mainFile)))
  {
    var ops := ProjectFile(source, buildDir, output, mainFile).ctr.ops;
    GoPlanStages(source, buildDir, output, mainFile);
    assert |PackageCachePath| != |BuildCachePath|;
    assert |ModDownload| != |GoBuildArgs(output, mainFile)|;
    assert forall j, k :: 0 <= j < k < |ops| ==> ops[j] != ops[k];
    IndexOfDistinct(ops, 2);
    IndexOfDistinct(ops, 3);
    IndexOfDistinct(ops, 4);
    IndexOfDistinct(ops, 5);
  }
}
