/**
 * The fixed wirings of the two builders: build a Go binary, the API and
 * health binaries, and the TypeScript worker. Each constructs a fresh
 * project, runs its setup on it and builds from it.
 */
module Dagger {
  import opened Staging
  import Golang
  import Node

  /** A fresh Go project, `setup(buildDir)`, then `build(output, mainFile)`. */
  method BuildGoProject(source: Artifact, buildDir: string, output: string, mainFile: string) returns (f: Artifact)
    ensures f == Golang.ProjectFile(source, buildDir, output, mainFile)
    ensures f.FileAt? && f.path == "/go/src/" + output
  {
    var project := new Golang.GolangProject(source);
    var ready := project.Setup(buildDir);
    f := ready.Build(output, mainFile);
  }

  /** The API binary: output `unkey-api` from `./build/api/main.go`. */
  method BuildUnkeyAPI(source: Artifact, buildDir: string) returns (f: Artifact)
    ensures f == Golang.ProjectFile(source, buildDir, "unkey-api", "./build/api/main.go")
    ensures f.FileAt? && f.path == "/go/src/unkey-api"
  {
    f := BuildGoProject(source, buildDir, "unkey-api", "./build/api/main.go");
  }

  /** The health binary: output `unkey-health` from `./build/health/main.go`. */
  method BuildUnkeyHealth(source: Artifact, buildDir: string) returns (f: Artifact)
    ensures f == Golang.ProjectFile(source, buildDir, "unkey-health", "./build/health/main.go")
    ensures f.FileAt? && f.path == "/go/src/unkey-health"
  {
    f := BuildGoProject(source, buildDir, "unkey-health", "./build/health/main.go");
  }

  /**
   * A fresh TypeScript project, `setup()`, then `build(buildDir, output)`;
   * the builder takes one argument, so `output` has no effect.
   */
  method BuildTypeScript(source: Artifact, buildDir: string, output: string) returns (f: Artifact)
    ensures f == Node.ProjectFile(source, buildDir)
    ensures f.FileAt? && f.path == "/app/unkey"
  {
    var project := new Node.TSProject(source);
    var ready := project.Setup();
    f := ready.Build(buildDir);
  }

  /**
   * For the same source and build directory, the API and health plans share
   * every stage but the last (the compile), and extract different files.
   */
  lemma ApiAndHealthShareSetup(source: Artifact, buildDir: string)
    ensures var api := Golang.ProjectFile(source, buildDir, "unkey-api", "./build/api/main.go");
            var health := Golang.ProjectFile(source, buildDir, "unkey-health", "./build/health/main.go");
      && api.ctr.platform == health.ctr.platform && api.ctr.base == health.ctr.base
      && |api.ctr.ops| == |health.ctr.ops| == 6
      && api.ctr.ops[..5] == health.ctr.ops[..5]
      && api.ctr.ops[5] == WithExec(["go", "build", "-o", "unkey-api", "./build/api/main.go"])
      && health.ctr.ops[5] == WithExec(["go", "build", "-o", "unkey-health", "./build/health/main.go"])
      && api.ctr.ops[5] != health.ctr.ops[5]
      && api.path != health.path
  {
    Golang.GoPlanStages(source, buildDir, "unkey-api", "./build/api/main.go");
    Golang.GoPlanStages(source, buildDir, "unkey-health", "./build/health/main.go");
    assert |"unkey-api"| != |"unkey-health"|;
  }
}
