/**
 * The TypeScript builder: a Node container with pnpm whose `ctr` is extended
 * in place by `Setup`, and from which `Build` derives the compiled worker.
 */
module Node {
  import opened Staging

  const NodeProjectDir := "/app/"
  const NpmCacheKey: CacheVolume := "npm-pkg-cache"
  const PnpmCachePath := "/root/.cache/pnpm"
  const PnpmInstall := ["pnpm", "install"]
  const GlobalInstall := ["npm", "install", "-g", "workerd@latest", "pnpm"]
  const WranglerDryRun := ["pnpm", "wrangler", "deploy", "--dry-run"]
  /** The `>` and `unkey` are plain arguments: no shell is involved. */
  const WorkerdCompile := ["pnpm", "workerd", "compile", "./worker.capnp", ">", "unkey"]
  const WorkerPath := "/app/unkey"

  /** The container a fresh project starts from. */
  function NodeBase(): Container
  {
    Container(EnginePlatform, NodeWithPnpm, [])
  }

  /** What `setup()` stages: working directory, source, pnpm cache, then two installs. */
  function SetupStages(projectDir: string, source: Artifact, packageCache: CacheVolume): seq<Op>
  {
    [ WithWorkdir(projectDir),
      WithDirectory(projectDir, source),
      WithMountedCache(PnpmCachePath, packageCache),
      WithExec(PnpmInstall),
      WithExec(GlobalInstall) ]
  }

  /** What `build(buildDir)` stages: the package directory, the dry-run deploy, the compile. */
  function BuildStages(projectDir: string, buildDir: string): seq<Op>
  {
    [ WithWorkdir(Workdir(projectDir, buildDir)),
      WithExec(WranglerDryRun),
      WithExec(WorkerdCompile) ]
  }

  class TSProject {
    const source: Artifact
    var ctr: Container
    const packageCache: CacheVolume
    const projectDir: string

    constructor(source: Artifact)
      ensures this.source == source
      ensures ctr == NodeBase() && ctr.base == NodeWithPnpm && ctr.ops == []
      ensures packageCache == "npm-pkg-cache" && projectDir == "/app/"
    {
      this.source := source;
      this.projectDir := NodeProjectDir;
      this.ctr := NodeBase();
      this.packageCache := NpmCacheKey;
    }

    /** Appends the setup stages to `ctr`, keeps what was there, and returns this object. */
    method Setup() returns (self: TSProject)
      modifies this`ctr
      ensures self == this
      ensures ctr.platform == old(ctr).platform && ctr.base == old(ctr).base
      ensures ctr.ops == old(ctr).ops + SetupStages(projectDir, source, packageCache)
    {
      ctr := Staged(ctr, [ WithWorkdir(projectDir),
                           WithDirectory(projectDir, source),
                           WithMountedCache(PnpmCachePath, packageCache),
                           WithExec(PnpmInstall),
                           WithExec(GlobalInstall) ]);
      self := this;
    }

    /**
     * The compiled worker: `ctr` plus the build stages, extracted at `/app/unkey`
     * whatever `buildDir` is. Being a function, it leaves `ctr` alone.
     */
    function Build(buildDir: string): (f: Artifact)
      reads this
      ensures f.FileAt? && f.path == "/app/unkey"
      ensures f.ctr.platform == ctr.platform && f.ctr.base == ctr.base
      ensures f.ctr.ops == ctr.ops + [ WithWorkdir(projectDir + buildDir),
                                       WithExec(WranglerDryRun),
                                       WithExec(WorkerdCompile) ]
    {
      FileAt(Staged(ctr, BuildStages(projectDir, buildDir)), WorkerPath)
    }

    /** Tests are not implemented: an empty directory, whatever the argument. */
    function Test(output: string): (d: Artifact)
      ensures d == EmptyDir
    {
      EmptyDir
    }
  }

  /** The file a fresh project gives after `setup()` then `build(buildDir)`. */
  function ProjectFile(source: Artifact, buildDir: string): Artifact
  {
    FileAt(Staged(Staged(NodeBase(), SetupStages(NodeProjectDir, source, NpmCacheKey)),
                  BuildStages(NodeProjectDir, buildDir)),
           WorkerPath)
  }

  /**
   * A fresh project's plan: five setup stages, then three build stages. The
   * pnpm cache is the only mount, and the compile's argv carries `>` and
   * `unkey` as literal arguments.
   */
  lemma TsPlanStages(source: Artifact, buildDir: string)
    ensures var ops := ProjectFile(source, buildDir).ctr.ops;
      && ops == [ WithWorkdir("/app/"), WithDirectory("/app/", source),
                  WithMountedCache("/root/.cache/pnpm", "npm-pkg-cache"), WithExec(PnpmInstall), WithExec(GlobalInstall),
                  WithWorkdir("/app/" + buildDir), WithExec(WranglerDryRun), WithExec(WorkerdCompile) ]
      && (forall i :: 0 <= i < |ops| && ops[i].WithMountedCache? ==> i == 2)
      && ops[7].args[4] == ">" && ops[7].args[5] == "unkey" && |ops[7].args| == 6
  {
  }

  /** Dependencies are installed before the dry-run deploy, which runs before the compile. */
  lemma TsPlanOrder(source: Artifact, buildDir: string)
    ensures var ops := ProjectFile(source, buildDir).ctr.ops;
      && StagedBefore(ops, WithExec(PnpmInstall), WithExec(WranglerDryRun))
      && StagedBefore(ops, WithExec(WranglerDryRun), WithExec(WorkerdCompile))
  {
    var ops := ProjectFile(source, buildDir).ctr.ops;
    TsPlanStages(source, buildDir);
    assert |PnpmInstall| != |GlobalInstall|;
    assert |WranglerDryRun| != |PnpmInstall| && |WranglerDryRun| != |GlobalInstall|;
    assert |WorkerdCompile| != |PnpmInstall| && |WorkerdCompile| != |GlobalInstall| && |WorkerdCompile| != |WranglerDryRun|;
    StagedBeforeAt(ops, 3, 6);
    StagedBeforeAt(ops, 6, 7);
  }
}
