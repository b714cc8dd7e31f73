# Dagger build-and-release staging, modelled in Dafny

This project models the staging logic of a Dagger module that builds a Go
service and a TypeScript worker and releases container images to an ECR
registry. It models which build steps are staged, in what order, with which
cache keys, working directories and commands, and which image references get
published.

A Dagger `Container` is modelled as an immutable value: a platform, a base and
a `seq<Op>` of staged calls (`WithDirectory`, `WithWorkdir`,
`WithMountedCache(path, key)`, `WithExec(argv)`, `WithFile`, `WithEntrypoint`,
`WithRegistryAuth`). A terminal `.file(p)` is an `Artifact` that names the
container and the path. A cache volume is its key string. Nothing is executed.
A publish appends the authenticated image and its reference to a ghost log,
`Kg.Dagger2.published`.

Modules, one per source file:

- `Staging` (`staging.dfy`): the container value and helpers shared by both builders.
- `Golang` (`golang.dfy`, for `golang.ts`): the class `GolangProject`. Its
  `ctr` field is extended in place by `Setup`. `Build`, `Test`, `OCIImage` and
  `BuildDockerImage` are functions of the object, so they cannot store
  anything into it. Calling `Build` twice gives the same plan and leaves `ctr`
  as it was.
- `Node` (`node.dfy`, for `node.ts`): the class `TSProject`, built the same way.
- `Dagger` (`dagger.dfy`, for `index.ts`): the fixed wirings. Each builds a
  fresh project, sets it up and builds from it.
- `Kg` (`kg.dfy`, for `kg.ts`): the release driver `Dagger2` and its helpers:
  date-tag default, tag policy, references, the dispatch on the service type,
  the static service list and the batch.
- `Wrappers` (`wrappers.dfy`): `Option` for omitted arguments and `Result` for
  a thrown error.

Two behaviours of the code worth noting:

- With an empty git hash, the versioned tag is `"-" + dateTag`, not the bare
  date (`Kg.VersionedTagExamples`).
- A batch has no per-service failure isolation. One unsupported service
  rejects the whole batch (`Kg.OneFailureRejectsBatch`).

## Model

| member | source | states |
|---|---|---|
| `Staging.Staged` | dagger/.dagger/src/golang.ts:27-31 | staging keeps the platform, the base and every earlier stage, and appends the new ones after them |
| `Staging.Workdir` | dagger/.dagger/src/golang.ts:25 | the working directory is always `projectDir + buildDir`: the test on an empty `buildDir` changes nothing |
| `Staging.Prefix` | dagger/.dagger/src/kg.ts:72 | `slice(0, n)` gives the first `n` characters, or the whole of a shorter string, and is a prefix of it |
| `Golang.GolangProject.constructor` | dagger/.dagger/src/golang.ts:12-20 | a fresh project starts from `golang:1.24` with no stages, has cache keys `go-build-cache` and `go-pkg-cache` (distinct), and has project dir `/go/src/` |
| `Golang.GolangProject.Setup` | dagger/.dagger/src/golang.ts:23-32 | appends source copy, workdir `/go/src/<buildDir>`, module-cache mount and `go mod download` to `ctr`; keeps earlier stages; returns the same object |
| `Golang.GolangProject.Build` | dagger/.dagger/src/golang.ts:34-40 | the file at `/go/src/<output>`, whatever `buildDir` was, from `ctr` plus the object-cache mount and `go build -o output mainFile` |
| `Golang.GolangProject.Test` | dagger/.dagger/src/golang.ts:42-46 | an empty directory for any argument |
| `Golang.GolangProject.OCIImage` | dagger/.dagger/src/golang.ts:50-54 | an `alpine` image holding the built binary at `/bin/<output>`, with that path as the entrypoint |
| `Golang.GolangProject.BuildDockerImage` | dagger/.dagger/src/golang.ts:48-63 | one push per tag, in tag order, each under `imageName:tag`, all of the same image |
| `Golang.GoPlanStages` | dagger/.dagger/src/golang.ts:17-39 | a fresh project's setup-then-build plan is exactly six stages; only two of them mount caches, at different paths and under different keys |
| `Golang.GoPlanOrder` | dagger/.dagger/src/golang.ts:27-38 | the module-cache mount comes before `go mod download`, which comes before the object-cache mount and before the `go build` exec |
| `Node.TSProject.constructor` | dagger/.dagger/src/node.ts:12-19 | a fresh project starts from the Node-with-pnpm container with no stages, cache key `npm-pkg-cache` and project dir `/app/` |
| `Node.TSProject.Setup` | dagger/.dagger/src/node.ts:21-31 | appends workdir `/app/`, source copy, pnpm-cache mount, `pnpm install` and `npm install -g workerd@latest pnpm` to `ctr`; keeps earlier stages; returns the same object |
| `Node.TSProject.Build` | dagger/.dagger/src/node.ts:33-41 | the file `/app/unkey` whatever `buildDir` is, from `ctr` plus workdir `/app/<buildDir>`, the dry-run deploy and the compile |
| `Node.TSProject.Test` | dagger/.dagger/src/node.ts:43-47 | an empty directory for any argument |
| `Node.TsPlanStages` | dagger/.dagger/src/node.ts:24-40 | a fresh project's plan is eight stages; the pnpm cache is the only mount; `>` and `unkey` are literal argv entries of the compile, not a shell redirect |
| `Node.TsPlanOrder` | dagger/.dagger/src/node.ts:28-39 | `pnpm install` comes before `pnpm wrangler deploy --dry-run`, which comes before `pnpm workerd compile` |
| `Golang.SetupContainer` | dagger/.dagger/src/index.ts:30-32 | a fresh Go project after `setup(buildDir)`; its stages are stated by `Golang.GoPlanStages` |
| `Golang.ProjectFile` | dagger/.dagger/src/index.ts:29-34 | a fresh Go project's setup-then-build file; stated by `Golang.GoPlanStages` and `Golang.GoPlanOrder`, and equal to `Dagger.BuildGoProject`'s result |
| `Node.ProjectFile` | dagger/.dagger/src/index.ts:58-63 | a fresh TypeScript project's setup-then-build file; stated by `Node.TsPlanStages` and `Node.TsPlanOrder`, and equal to `Dagger.BuildTypeScript`'s result |
| `Dagger.BuildGoProject` | dagger/.dagger/src/index.ts:28-34 | equals a fresh project's setup-then-build plan; the result is the file `/go/src/<output>` |
| `Dagger.BuildUnkeyAPI` | dagger/.dagger/src/index.ts:40-43 | the Go build with output `unkey-api` from `./build/api/main.go`, extracted at `/go/src/unkey-api` |
| `Dagger.BuildUnkeyHealth` | dagger/.dagger/src/index.ts:49-52 | the Go build with output `unkey-health` from `./build/health/main.go`, extracted at `/go/src/unkey-health` |
| `Dagger.BuildTypeScript` | dagger/.dagger/src/index.ts:57-63 | a fresh project's setup-then-build plan, ignoring `output`; the result is always `/app/unkey` |
| `Dagger.ApiAndHealthShareSetup` | dagger/.dagger/src/index.ts:41-52 | for the same source and build dir, the API and health plans agree on every stage except the final `go build`, and their extraction paths differ |
| `Kg.RemoveDashes` | dagger/.dagger/src/kg.ts:22 | `replace(/-/g, "")` leaves no `-` and never lengthens the string |
| `Kg.RemoveDashesAppend` | dagger/.dagger/src/kg.ts:22 | removing dashes works piecewise over a concatenation |
| `Kg.DateTagOrToday` | dagger/.dagger/src/kg.ts:22 | a non-empty date tag is kept unchanged; an empty one becomes at most ten dash-free characters of the timestamp |
| `Kg.TodayTagIsCompactDate` | dagger/.dagger/src/kg.ts:22 | for a `YYYY-MM-DD...` timestamp, the default date tag is the eight digits `YYYYMMDD` |
| `Kg.Dagger2.constructor` | dagger/.dagger/src/kg.ts:12-24 | registry defaults to `442426849924.dkr.ecr.us-west-2.amazonaws.com` and git hash to `""`; the date tag is defaulted as above; the publish log starts empty |
| `Kg.SplitVersionedTag` | dagger/.dagger/src/kg.ts:72 | for a hash without dashes, the versioned tag splits at its first `-` back into the first seven characters of the hash (or all of a shorter one) and the date tag |
| `Kg.VersionedTagExamples` | dagger/.dagger/src/kg.ts:72 | `abcdef1234567` with `20240115` gives `abcdef1-20240115`; an empty hash gives `-20240115` |
| `Kg.VersionedTagNotLatest` | dagger/.dagger/src/kg.ts:72-90 | the versioned tag always contains `-`, so it is never `latest` |
| `Kg.SplitReferenceRoundTrip` | dagger/.dagger/src/kg.ts:82 | `name:tag` splits at its last `:` back into the image name and a tag without `:` |
| `Kg.ReferencesDiffer` | dagger/.dagger/src/kg.ts:82-90 | references to one image under different tags differ |
| `Kg.DispatchSpec` | dagger/.dagger/src/kg.ts:41-68 | only `go`, `ts` and `docker` give a container, and any other type gives `Unsupported type: <type>`; `ts` and `docker` build for `linux/arm64`; the `ts` image is `node:alpine` with the build at `/app`, workdir `/app` and entrypoint `npm run start` |
| `Kg.ServiceReleaseSpec` | dagger/.dagger/src/kg.ts:39-92 | an unsupported type publishes nothing; otherwise exactly two publishes of one image, which is the container the `switch` dispatched to with a registry login as `AWS` staged after it, `<registry>/<image>:<versioned>` first and `:latest` second, and the message names only the versioned reference |
| `Kg.VersionedTag` | dagger/.dagger/src/kg.ts:72 | the versioned tag; its meaning is stated by `Kg.SplitVersionedTag`, `Kg.VersionedTagExamples` and `Kg.VersionedTagNotLatest` |
| `Kg.ImageName` | dagger/.dagger/src/kg.ts:73 | `registry/imageName`; the references built from it are stated by `Kg.ServiceReleaseSpec` |
| `Kg.Reference` | dagger/.dagger/src/kg.ts:82-90 | `name:tag`; inverted by `Kg.SplitReferenceRoundTrip`, injective in the tag by `Kg.ReferencesDiffer` |
| `Kg.ServiceContainer` | dagger/.dagger/src/kg.ts:41-69 | the `switch` on the service type; its cases are stated by `Kg.DispatchSpec` |
| `Kg.ServiceRelease` | dagger/.dagger/src/kg.ts:39-92 | one `buildAndPushService` call as a value; its properties are stated by `Kg.ServiceReleaseSpec` |
| `Kg.BatchRelease` | dagger/.dagger/src/kg.ts:154-163 | the `Promise.all` batch as a value; its properties are stated by `Kg.OneFailureRejectsBatch`, `Kg.AllUnsupportedRejects` and `Kg.AllSupportedPublishesAll` |
| `Kg.Dagger2.BuildAndPushService` | dagger/.dagger/src/kg.ts:30-93 | the returned message or error, and the publish log extended by exactly that call's publishes |
| `Kg.OneFailureRejectsBatch` | dagger/.dagger/src/kg.ts:154-163 | one unsupported service anywhere in the list rejects the whole batch |
| `Kg.AllUnsupportedRejects` | dagger/.dagger/src/kg.ts:154-163 | when no call is supported, nothing is published and the batch rejects with the first call's error |
| `Kg.AllSupportedPublishesAll` | dagger/.dagger/src/kg.ts:154-163 | when every call is supported, the batch succeeds with one message per call and two publishes per call, in call order |
| `Kg.Services` | dagger/.dagger/src/kg.ts:100-152 | seven services with distinct names; every type is supported and no path is; only the `ts` services carry a build command |
| `Kg.AsWrittenCalls` | dagger/.dagger/src/kg.ts:155-162 | as written, each call's `type` parameter receives the service's `path` |
| `Kg.IntendedCalls` | dagger/.dagger/src/kg.ts:155-162 | as intended, each call receives the service's own type and image name |
| `Kg.AsWrittenBatchRejects` | dagger/.dagger/src/kg.ts:99-165 | as written, the batch publishes nothing and rejects with `Unsupported type: cmd/platform.auth` |
| `Kg.IntendedBatchPublishesAll` | dagger/.dagger/src/kg.ts:99-165 | as intended, all seven services publish their versioned and then their `latest` reference, in list order: fourteen publishes, seven messages |
| `Kg.Dagger2.PushCalls` | dagger/.dagger/src/kg.ts:154-163 | runs every call in order; the result and the publish log are those of the batch |
| `Kg.Dagger2.BuildAndPushAll` | dagger/.dagger/src/kg.ts:99-166 | the batch as written: it rejects with `Unsupported type: cmd/platform.auth` and leaves the publish log unchanged |
| `Kg.Dagger2.BuildAndPushAllIntended` | dagger/.dagger/src/kg.ts:99-166 | the batch as intended: seven messages and fourteen new entries in the publish log |

## Left out

- `release` (dagger/.dagger/src/index.ts:77-90): it drives the goreleaser module, a Docker socket, secrets and `docker login`, none of which this model can state.
- Execution by the engine: image pulls, command results, `.publish` and `ecrPush`. Containers are staged values, and a publish is an entry in a log.
- The clock: the ISO timestamp that `new Date()` gives is a parameter, `isoNow`, of the `Dagger2` constructor.
- Concurrency: `Promise.all` is modelled as running the calls one after another in list order, so the log lists each service's publishes together. In the source, the publishes of different services may interleave. The batch rejects with the first error in list order. This matches the source here, because the unsupported-type error is thrown before the first `await`.
- `transferBinary` (dagger/.dagger/src/kg.ts:45): `golang.ts` does not define it. Its result is recorded as a `TransferredBinary` base holding the set-up Go container, the name and `"."`, and is not interpreted. It is given the engine's default platform. As written, that call would throw a `TypeError` (`transferBinary` is not a function) before the first `await`, so every `go` service would fail; the model does not capture this and treats the call as returning a container.
- `dag.node().withPnpm()`: a container from another module, recorded as the base `NodeWithPnpm`.
- The `ts` branch hands the file returned by `build` to `withDirectory`. The model records that artifact as given and does not model any type check.
- `buildTypeScript` (dagger/.dagger/src/index.ts:58-63) is declared to return a `Directory` but returns the `File` from `build`. The model returns that file and does not model the declared type.
- Strings are modelled as sequences of Unicode scalar values. JavaScript's `slice(0, n)` counts UTF-16 code units, so `Staging.Prefix` can differ from it on characters outside the Basic Multilingual Plane.
- Surplus arguments: `setup(path)` and `build(path, buildCommand)` in `kg.ts`, and `build(buildDir, output)` in `index.ts`, are modelled by dropping the extra arguments, as the runtime does.
- `console.log` in `test`, and the contents of secrets and credentials: secrets are opaque tokens.
- The `Project` interface (dagger/.dagger/src/index.ts:9-14) is a type with no behaviour.
- apps/dashboard/components/logs/datetime/datetime-popover.tsx is not part of this model: it is a UI component.

## Findings

| source | as written | input that shows it | evidently intended | confidence | as-written member | corrected member |
|---|---|---|---|---|---|---|
| dagger/.dagger/src/kg.ts:155-162 | the service fields are passed in the order (name, dockerfile, imageName, path, type, buildCommand) to parameters (name, imageName, path, type, dockerfile, buildCommand), so `type` receives the service's `path` | the static list itself: the first call gets type `cmd/platform.auth`, every call throws, and the batch rejects with `Unsupported type: cmd/platform.auth` having published nothing | each field goes to the parameter of the same name, and all seven services publish, provided the undefined `transferBinary` (kg.ts:45) returns a container; as written it would throw for the four `go` services | high; not executed | `Kg.AsWrittenBatchRejects` | `Kg.IntendedBatchPublishesAll` |
