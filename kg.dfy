/**
 * The release driver: resolves its defaults once, dispatches a service on its
 * type string, tags the resulting image and publishes it twice (versioned,
 * then `latest`) behind registry authentication; and the batch over the
 * static list of services.
 *
 * Publishing is not performed: each publish appends the authenticated image
 * and its reference to a log.
 */
module Kg {
  import opened Wrappers
  import opened Staging
  import Golang
  import Node

  const DefaultRegistry := "442426849924.dkr.ecr.us-west-2.amazonaws.com"
  const RegistryUser := "AWS"
  const LatestTag := "latest"
  const Arm64 := Pinned("linux/arm64")

  // ---------------------------------------------------------------------------
  // The date tag

  /** `s.replace(/-/g, "")`: every `-` removed, everything else kept in order. */
  function RemoveDashes(s: string): (r: string)
    ensures '-' !in r
    ensures |r| <= |s|
  {
    if s == [] then []
    else if s[0] == '-' then RemoveDashes(s[1..])
    else [s[0]] + RemoveDashes(s[1..])
  }

  lemma {:induction false} RemoveDashesAppend(a: string, b: string)
    ensures RemoveDashes(a + b) == RemoveDashes(a) + RemoveDashes(b)
  {
    if a == [] {
      assert a + b == b;
    } else {
      assert (a + b)[0] == a[0] && (a + b)[1..] == a[1..] + b;
      RemoveDashesAppend(a[1..], b);
    }
  }

  /** A string without dashes is left as it is. */
  lemma {:induction false} RemoveDashesNone(s: string)
    requires '-' !in s
    ensures RemoveDashes(s) == s
  {
    if s != [] {
      RemoveDashesNone(s[1..]);
    }
  }

  /**
   * The stored date tag: a non-empty argument unchanged; otherwise the first
   * ten characters of the ISO timestamp with the dashes removed.
   */
  function DateTagOrToday(dateTag: string, isoNow: string): (t: string)
    ensures dateTag != "" ==> t == dateTag
    ensures dateTag == "" ==> '-' !in t && |t| <= 10
  {
    if dateTag != "" then dateTag else RemoveDashes(Prefix(isoNow, 10))
  }

  predicate IsDigit(c: char) { '0' <= c <= '9' }

  /** A timestamp that starts `YYYY-MM-DD`, as `toISOString` writes it. */
  predicate IsoDatePrefix(iso: string)
  {
    && |iso| >= 10 && iso[4] == '-' && iso[7] == '-'
    && (forall i :: 0 <= i < 4 ==> IsDigit(iso[i]))
    && (forall i :: 5 <= i < 7 ==> IsDigit(iso[i]))
    && (forall i :: 8 <= i < 10 ==> IsDigit(iso[i]))
  }

  /** Dropping the two separators of a date joins its three parts. */
  lemma RemoveDateSeparators(year: string, month: string, day: string)
    requires '-' !in year && '-' !in month && '-' !in day
    ensures RemoveDashes(year + ("-" + (month + ("-" + day)))) == year + (month + day)
  {
    var dash := "-";
    assert RemoveDashes(dash) == [];
    RemoveDashesNone(year);
    RemoveDashesNone(month);
    RemoveDashesNone(day);
    var a := dash + day;
    RemoveDashesAppend(dash, day);
    assert RemoveDashes(a) == day;
    var b := month + a;
    RemoveDashesAppend(month, a);
    assert RemoveDashes(b) == month + day;
    var c := dash + b;
    RemoveDashesAppend(dash, b);
    assert RemoveDashes(c) == month + day;
    RemoveDashesAppend(year, c);
  }

  /** With no date tag given, a `YYYY-MM-DD...` timestamp gives the eight digits `YYYYMMDD`. */
  lemma TodayTagIsCompactDate(iso: string)
    requires IsoDatePrefix(iso)
    ensures DateTagOrToday("", iso) == iso[0..4] + iso[5..7] + iso[8..10]
    ensures |DateTagOrToday("", iso)| == 8
    ensures forall i :: 0 <= i < 8 ==> IsDigit(DateTagOrToday("", iso)[i])
  {
    var year, month, day := iso[0..4], iso[5..7], iso[8..10];
    assert Prefix(iso, 10) == year + ("-" + (month + ("-" + day)));
    assert '-' !in year by { assert forall i :: 0 <= i < 4 ==> year[i] == iso[i]; }
    assert '-' !in month by { assert forall i :: 0 <= i < 2 ==> month[i] == iso[5 + i]; }
    assert '-' !in day by { assert forall i :: 0 <= i < 2 ==> day[i] == iso[8 + i]; }
    RemoveDateSeparators(year, month, day);
    var t := year + (month + day);
    assert forall i :: 0 <= i < 4 ==> t[i] == iso[i];
    assert forall i :: 4 <= i < 6 ==> t[i] == iso[i + 1];
    assert forall i :: 6 <= i < 8 ==> t[i] == iso[i + 2];
  }

  // ---------------------------------------------------------------------------
  // Tags and references

  /** `${gitHash.slice(0, 7)}-${dateTag}`. */
  function VersionedTag(gitHash: string, dateTag: string): string
  {
    Prefix(gitHash, 7) + "-" + dateTag
  }

  /** Splits a tag at its first `-`: the short hash before it, the date after it. */
  function SplitTag(tag: string): Option<(string, string)>
  {
    match IndexOf(tag, '-')
    case None => None
    case Some(i) => Some((tag[..i], tag[i + 1..]))
  }

  /**
   * For a hash without dashes (a hex commit id), the versioned tag splits back
   * into the hash's first seven characters (or all of a shorter hash) and the
   * date tag.
   */
  lemma SplitVersionedTag(gitHash: string, dateTag: string)
    requires '-' !in gitHash
    ensures SplitTag(VersionedTag(gitHash, dateTag)) == Some((Prefix(gitHash, 7), dateTag))
  {
    var short := Prefix(gitHash, 7);
    var tag := VersionedTag(gitHash, dateTag);
    assert forall k :: 0 <= k < |short| ==> short[k] == gitHash[k];
    assert tag[|short|] == '-';
    assert forall k :: 0 <= k < |short| ==> tag[k] == short[k];
    IndexOfAt(tag, '-', |short|);
    assert tag[..|short|] == short;
    assert tag[|short| + 1..] == dateTag;
  }

  /** The worked examples: a long hash is cut to seven characters; an empty one leaves a bare `-`. */
  lemma VersionedTagExamples()
    ensures VersionedTag("abcdef1234567", "20240115") == "abcdef1-20240115"
    ensures VersionedTag("", "20240115") == "-20240115"
  {
    assert Prefix("abcdef1234567", 7) == "abcdef1";
  }

  /** The versioned tag always holds a `-`, so it is never the floating tag. */
  lemma VersionedTagNotLatest(gitHash: string, dateTag: string)
    ensures '-' in VersionedTag(gitHash, dateTag)
    ensures VersionedTag(gitHash, dateTag) != LatestTag
  {
    var tag := VersionedTag(gitHash, dateTag);
    assert tag[|Prefix(gitHash, 7)|] == '-';
    assert '-' !in LatestTag;
  }

  /** `${registry}/${imageName}`. */
  function ImageName(registry: string, imageName: string): string
  {
    registry + "/" + imageName
  }

  /** `${fullImageName}:${tag}`. */
  function Reference(fullImageName: string, tag: string): string
  {
    fullImageName + ":" + tag
  }

  /** Splits a reference at its last `:` into image name and tag. */
  function SplitReference(ref: string): Option<(string, string)>
  {
    if ref == [] then None
    else if ref[|ref| - 1] == ':' then Some((ref[..|ref| - 1], ""))
    else match SplitReference(ref[..|ref| - 1])
      case None => None
      case Some((name, tag)) => Some((name, tag + [ref[|ref| - 1]]))
  }

  /** A reference splits back into its image name and a tag that holds no `:`. */
  lemma {:induction false} SplitReferenceRoundTrip(fullImageName: string, tag: string)
    requires ':' !in tag
    ensures SplitReference(Reference(fullImageName, tag)) == Some((fullImageName, tag))
  {
    var ref := Reference(fullImageName, tag);
    if tag == [] {
      assert ref[..|ref| - 1] == fullImageName;
    } else {
      var init := tag[..|tag| - 1];
      assert ref[..|ref| - 1] == Reference(fullImageName, init);
      assert ref[|ref| - 1] == tag[|tag| - 1];
      SplitReferenceRoundTrip(fullImageName, init);
      assert init + [tag[|tag| - 1]] == tag;
    }
  }

  /** Different strings stay different behind a common prefix. */
  lemma PrefixKeepsDifference(p: string, a: string, b: string)
    requires a != b
    ensures p + a != p + b
  {
    assert (p + a)[|p|..] == a && (p + b)[|p|..] == b;
  }

  /** References to one image under different tags differ. */
  lemma ReferencesDiffer(fullImageName: string, t1: string, t2: string)
    requires t1 != t2
    ensures Reference(fullImageName, t1) != Reference(fullImageName, t2)
  {
    PrefixKeepsDifference(fullImageName + ":", t1, t2);
    assert Reference(fullImageName, t1) == (fullImageName + ":") + t1;
    assert Reference(fullImageName, t2) == (fullImageName + ":") + t2;
  }

  // ---------------------------------------------------------------------------
  // One service

  /** The arguments of one `buildAndPushService` call; `None` is an omitted argument. */
  datatype Call = Call(name: string, imageName: string, path: string, serviceType: string,
                       dockerfile: Option<string>, buildCommand: Option<seq<string>>)

  /** The driver's resolved settings. */
  datatype Config = Config(source: Artifact, registry: string, gitHash: string, dateTag: string, token: Secret)

  /** One publish: the authenticated image and the reference it is pushed under. */
  datatype Publish = Publish(image: Container, reference: string)

  /** What a run gives back (a value or the thrown message) and what it published, in order. */
  datatype Outcome<T> = Outcome(result: Result<T, string>, pushes: seq<Publish>)

  predicate Supported(serviceType: string)
  {
    serviceType == "go" || serviceType == "ts" || serviceType == "docker"
  }

  /** The `ts` image: `node:alpine` with the built worker at `/app`, run by `npm run start`. */
  function TsImage(built: Artifact): Container
  {
    Container(Arm64, From("node:alpine"),
      [ WithDirectory("/app", built), WithWorkdir("/app"), WithEntrypoint(["npm", "run", "start"]) ])
  }

  /** The container chosen by the `switch` on the service type. */
  function ServiceContainer(source: Artifact, call: Call): Result<Container, string>
  {
    if call.serviceType == "go" then
      Success(Container(EnginePlatform, TransferredBinary(Golang.SetupContainer(source, call.path), call.name, "."), []))
    else if call.serviceType == "ts" then
      Success(TsImage(Node.ProjectFile(source, call.path)))
    else if call.serviceType == "docker" then
      Success(Container(Arm64, DockerfileBuild(source, call.dockerfile), []))
    else
      Failure("Unsupported type: " + call.serviceType)
  }

  /**
   * The dispatch: exactly `go`, `ts` and `docker` give a container, anything
   * else the error `Unsupported type: <type>`. `ts` and `docker` build for
   * `linux/arm64`; `ts` runs the built worker from `/app` on `node:alpine`;
   * `docker` builds the source with the given Dockerfile; `go` wraps the set-up
   * Go container.
   */
  lemma DispatchSpec(source: Artifact, call: Call)
    ensures var r := ServiceContainer(source, call);
      && (r.Failure? <==> !Supported(call.serviceType))
      && (r.Failure? ==> r.error == "Unsupported type: " + call.serviceType)
      && (call.serviceType in {"ts", "docker"} ==> r.Success? && r.value.platform == Pinned("linux/arm64"))
      && (call.serviceType == "ts" ==>
            && r.Success? && r.value.base == From("node:alpine") && |r.value.ops| == 3
            && r.value.ops[0] == WithDirectory("/app", Node.ProjectFile(source, call.path))
            && r.value.ops[1] == WithWorkdir("/app")
            && r.value.ops[2] == WithEntrypoint(["npm", "run", "start"]))
      && (call.serviceType == "docker" ==> r.Success? && r.value.base == DockerfileBuild(source, call.dockerfile))
      && (call.serviceType == "go" ==>
            r.Success? && r.value.base == TransferredBinary(Golang.SetupContainer(source, call.path), call.name, "."))
  {
  }

  /** One `buildAndPushService` call: the container, then the two publishes and the message. */
  function ServiceRelease(cfg: Config, call: Call): Outcome<string>
  {
    match ServiceContainer(cfg.source, call)
    case Failure(e) => Outcome(Failure(e), [])
    case Success(container) =>
      var tag := VersionedTag(cfg.gitHash, cfg.dateTag);
      var full := ImageName(cfg.registry, call.imageName);
      var authed := Staged(container, [WithRegistryAuth(cfg.registry, RegistryUser, cfg.token)]);
      Outcome(Success("Successfully built and pushed " + Reference(full, tag)),
              [Publish(authed, Reference(full, tag)), Publish(authed, Reference(full, LatestTag))])
  }

  /**
   * An unsupported type throws before anything is published. Otherwise exactly
   * two publishes of the same image happen, the dispatched container with a
   * registry login as `AWS` staged after it: the versioned reference first,
   * `latest` second; the two differ, and the message names only the versioned
   * one.
   */
  lemma ServiceReleaseSpec(cfg: Config, call: Call)
    ensures var o := ServiceRelease(cfg, call);
      && (o.result.Failure? <==> !Supported(call.serviceType))
      && (o.result.Failure? ==> o.pushes == [] && o.result.error == "Unsupported type: " + call.serviceType)
      && (o.result.Success? ==>
            var full := ImageName(cfg.registry, call.imageName);
            var ops := o.pushes[0].image.ops;
            && |o.pushes| == 2
            && o.pushes[0].reference == full + ":" + VersionedTag(cfg.gitHash, cfg.dateTag)
            && o.pushes[1].reference == full + ":latest"
            && o.pushes[0].reference != o.pushes[1].reference
            && o.pushes[0].image == o.pushes[1].image
            && o.pushes[0].image
               == Staged(ServiceContainer(cfg.source, call).value, [WithRegistryAuth(cfg.registry, "AWS", cfg.token)])
            && |ops| > 0 && ops[|ops| - 1] == WithRegistryAuth(cfg.registry, "AWS", cfg.token)
            && o.result.value == "Successfully built and pushed " + o.pushes[0].reference
            && o.result.value != "Successfully built and pushed " + o.pushes[1].reference)
  {
    DispatchSpec(cfg.source, call);
    var tag := VersionedTag(cfg.gitHash, cfg.dateTag);
    var full := ImageName(cfg.registry, call.imageName);
    VersionedTagNotLatest(cfg.gitHash, cfg.dateTag);
    ReferencesDiffer(full, tag, LatestTag);
    PrefixKeepsDifference("Successfully built and pushed ", Reference(full, tag), Reference(full, LatestTag));
  }

  // ---------------------------------------------------------------------------
  // The batch

  /** Adds one call's result to the batch's: the first error wins, otherwise messages in order. */
  function Join(acc: Result<seq<string>, string>, r: Result<string, string>): Result<seq<string>, string>
  {
    if acc.Failure? then acc
    else if r.Failure? then Failure(r.error)
    else Success(acc.value + [r.value])
  }

  /**
   * `Promise.all` over the calls, run one after another in list order: every
   * call runs and publishes; the batch rejects with the first error in list
   * order, otherwise it yields every message in order.
   */
  function BatchRelease(cfg: Config, calls: seq<Call>): Outcome<seq<string>>
  {
    if calls == [] then Outcome(Success([]), [])
    else
      var before := BatchRelease(cfg, calls[..|calls| - 1]);
      var last := ServiceRelease(cfg, calls[|calls| - 1]);
      Outcome(Join(before.result, last.result), before.pushes + last.pushes)
  }

  /** A single unsupported call rejects the whole batch: no failure isolation. */
  lemma {:induction false} OneFailureRejectsBatch(cfg: Config, calls: seq<Call>, k: nat)
    requires k < |calls| && !Supported(calls[k].serviceType)
    ensures BatchRelease(cfg, calls).result.Failure?
  {
    if k < |calls| - 1 {
      OneFailureRejectsBatch(cfg, calls[..|calls| - 1], k);
    }
  }

  /** When no call is supported, the batch publishes nothing and rejects with the first call's error. */
  lemma {:induction false} AllUnsupportedRejects(cfg: Config, calls: seq<Call>)
    requires |calls| > 0
    requires forall i :: 0 <= i < |calls| ==> !Supported(calls[i].serviceType)
    ensures BatchRelease(cfg, calls) == Outcome(Failure("Unsupported type: " + calls[0].serviceType), [])
  {
    if |calls| > 1 {
      var init := calls[..|calls| - 1];
      AllUnsupportedRejects(cfg, init);
      assert init[0] == calls[0];
    }
  }

  /**
   * When every call is supported, the batch succeeds with one message per
   * call, in order, and publishes two references per call, in call order.
   */
  lemma {:induction false} AllSupportedPublishesAll(cfg: Config, calls: seq<Call>)
    requires forall i :: 0 <= i < |calls| ==> Supported(calls[i].serviceType)
    ensures var o := BatchRelease(cfg, calls);
      && o.result.Success? && |o.result.value| == |calls| && |o.pushes| == 2 * |calls|
      && forall i :: 0 <= i < |calls| ==>
           && ServiceRelease(cfg, calls[i]).result == Success(o.result.value[i])
           && ServiceRelease(cfg, calls[i]).pushes == o.pushes[2 * i..2 * i + 2]
  {
    if calls != [] {
      var n := |calls| - 1;
      var init := calls[..n];
      AllSupportedPublishesAll(cfg, init);
      var before := BatchRelease(cfg, init);
      var last := ServiceRelease(cfg, calls[n]);
      assert ServiceContainer(cfg.source, calls[n]).Success?;
      var o := BatchRelease(cfg, calls);
      assert o.pushes == before.pushes + last.pushes;
      assert o.result.value == before.result.value + [last.result.value];
      forall i | 0 <= i < |calls|
        ensures ServiceRelease(cfg, calls[i]).result == Success(o.result.value[i])
        ensures ServiceRelease(cfg, calls[i]).pushes == o.pushes[2 * i..2 * i + 2]
      {
        if i < n {
          assert calls[i] == init[i];
          assert o.pushes[2 * i..2 * i + 2] == before.pushes[2 * i..2 * i + 2];
        } else {
          assert o.pushes[2 * i..2 * i + 2] == last.pushes;
        }
      }
    }
  }

  // ---------------------------------------------------------------------------
  // The static service list and how the batch threads it

  /** One entry of the static service list, with its fields as the list names them. */
  datatype Service = Service(name: string, dockerfile: string, imageName: string, path: string,
                             serviceType: string, buildCommand: Option<seq<string>>)

  /** The seven services the batch releases: four `go`, two `ts`, one `docker`. */
  function Services(): (s: seq<Service>)
    ensures |s| == 7
    ensures forall i :: 0 <= i < |s| ==> Supported(s[i].serviceType) && !Supported(s[i].path)
    ensures forall i, j :: 0 <= i < j < |s| ==> s[i].name != s[j].name
    ensures forall i :: 0 <= i < |s| ==> (s[i].buildCommand.Some? <==> s[i].serviceType == "ts")
  {
    [ Service("platform_auth", "build/platform.auth/v0/Dockerfile.platform.auth",
              "keygraph-sandbox/platform-auth", "cmd/platform.auth", "go", None),
      Service("platform_core", "build/platform.core/v0/Dockerfile.platform.core",
              "keygraph-sandbox/platform-core", "cmd/platform.core", "go", None),
      Service("mdm_core", "build/mdm.core/v0/Dockerfile.mdm.core",
              "keygraph-sandbox/mdm-core", "cmd/mdm.core", "go", None),
      Service("react_app", "build/react-app/v0/Dockerfile.react-app",
              "keygraph-sandbox/react-app", "ts/apps/web-app", "ts", Some(["pnpm", "run", "build"])),
      Service("gql_gateway", "build/gql-gateway/v0/Dockerfile.gql-gateway",
              "keygraph-sandbox/gql-gateway", "ts/apps/graphql", "ts", Some(["pnpm", "run", "build"])),
      Service("redpanda_connect", "build/redpanda.connect/v0/Dockerfile.redpanda.connect",
              "keygraph-sandbox/redpanda-connect", "pkg/redpanda", "docker", None),
      Service("temporal-worker", "build/temporal-worker/v0/Dockerfile.temporal-worker",
              "keygraph-sandbox/temporal-worker", "cmd/temporal-worker", "go", None) ]
  }

  /**
   * The call the batch makes, as written: the fields are passed in the order
   * (name, dockerfile, imageName, path, type, buildCommand) to parameters
   * (name, imageName, path, type, dockerfile, buildCommand).
   */
  function AsWrittenCall(s: Service): Call
  {
    Call(s.name, s.dockerfile, s.imageName, s.path, Some(s.serviceType), s.buildCommand)
  }

  /** The call evidently intended: each field to the parameter of the same name. */
  function IntendedCall(s: Service): Call
  {
    Call(s.name, s.imageName, s.path, s.serviceType, Some(s.dockerfile), s.buildCommand)
  }

  function AsWrittenCalls(services: seq<Service>): (calls: seq<Call>)
    ensures |calls| == |services|
    ensures forall i :: 0 <= i < |services| ==> calls[i].serviceType == services[i].path
  {
    seq(|services|, i requires 0 <= i < |services| => AsWrittenCall(services[i]))
  }

  function IntendedCalls(services: seq<Service>): (calls: seq<Call>)
    ensures |calls| == |services|
    ensures forall i :: 0 <= i < |services| ==>
      calls[i].serviceType == services[i].serviceType && calls[i].imageName == services[i].imageName
  {
    seq(|services|, i requires 0 <= i < |services| => IntendedCall(services[i]))
  }

  /**
   * As written, every call receives a path as its type, so all seven reject:
   * nothing is published and the batch rejects with the first service's path.
   */
  lemma AsWrittenBatchRejects(cfg: Config)
    ensures BatchRelease(cfg, AsWrittenCalls(Services())) == Outcome(Failure("Unsupported type: cmd/platform.auth"), [])
  {
    var services := Services();
    var calls := AsWrittenCalls(services);
    assert services[0].path == "cmd/platform.auth";
    assert calls[0].serviceType == "cmd/platform.auth";
    assert forall i :: 0 <= i < |calls| ==> !Supported(calls[i].serviceType);
    AllUnsupportedRejects(cfg, calls);
    assert "Unsupported type: " + calls[0].serviceType == "Unsupported type: cmd/platform.auth";
  }

  /**
   * As intended, every service publishes its versioned reference and then its
   * `latest` reference, in list order: fourteen publishes, seven messages.
   */
  lemma IntendedBatchPublishesAll(cfg: Config)
    ensures var o := BatchRelease(cfg, IntendedCalls(Services()));
      && o.result.Success? && |o.result.value| == 7 && |o.pushes| == 14
      && forall i :: 0 <= i < 7 ==>
           var full := ImageName(cfg.registry, Services()[i].imageName);
           && o.pushes[2 * i].reference == full + ":" + VersionedTag(cfg.gitHash, cfg.dateTag)
           && o.pushes[2 * i + 1].reference == full + ":latest"
  {
    var services := Services();
    var calls := IntendedCalls(services);
    AllSupportedPublishesAll(cfg, calls);
    var o := BatchRelease(cfg, calls);
    forall i | 0 <= i < 7
      ensures o.pushes[2 * i].reference
              == ImageName(cfg.registry, services[i].imageName) + ":" + VersionedTag(cfg.gitHash, cfg.dateTag)
      ensures o.pushes[2 * i + 1].reference == ImageName(cfg.registry, services[i].imageName) + ":latest"
    {
      ServiceReleaseSpec(cfg, calls[i]);
      var one := ServiceRelease(cfg, calls[i]);
      assert one.pushes == o.pushes[2 * i..2 * i + 2];
      assert o.pushes[2 * i] == one.pushes[0] && o.pushes[2 * i + 1] == one.pushes[1];
    }
  }

  // ---------------------------------------------------------------------------
  // The driver object

  class Dagger2 {
    const source: Artifact
    const registry: string
    const gitHash: string
    const dateTag: string
    const awsECRToken: Secret
    /** Every reference published so far, with the image pushed under it. */
    ghost var published: seq<Publish>

    /**
     * Omitted arguments take their defaults; the date tag also falls back to
     * today's when it is given empty. `isoNow` is the clock's ISO timestamp.
     */
    constructor(source: Artifact, ecrToken: Secret, registry: Option<string>, gitHash: Option<string>,
                dateTag: Option<string>, isoNow: string)
      ensures this.source == source && awsECRToken == ecrToken
      ensures this.registry == registry.GetOr("442426849924.dkr.ecr.us-west-2.amazonaws.com")
      ensures this.gitHash == gitHash.GetOr("")
      ensures this.dateTag == DateTagOrToday(dateTag.GetOr(""), isoNow)
      ensures published == []
    {
      this.source := source;
      this.registry := registry.GetOr(DefaultRegistry);
      this.gitHash := gitHash.GetOr("");
      this.dateTag := DateTagOrToday(dateTag.GetOr(""), isoNow);
      this.awsECRToken := ecrToken;
      published := [];
    }

    function Settings(): Config
    {
      Config(source, registry, gitHash, dateTag, awsECRToken)
    }

    /** Builds the container the type selects, then publishes it versioned and as `latest`. */
    method BuildAndPushService(name: string, imageName: string, path: string, serviceType: string,
                               dockerfile: Option<string>, buildCommand: Option<seq<string>>)
      returns (r: Result<string, string>)
      modifies this`published
      ensures var o := ServiceRelease(Settings(), Call(name, imageName, path, serviceType, dockerfile, buildCommand));
        r == o.result && published == old(published) + o.pushes
    {
      var container: Container;
      if serviceType == "go" {
        var goProject := new Golang.GolangProject(source);
        var _ := goProject.Setup(path);
        container := Container(EnginePlatform, TransferredBinary(goProject.ctr, name, "."), []);
        assert goProject.ctr == Golang.SetupContainer(source, path);
      } else if serviceType == "ts" {
        var tsProject := new Node.TSProject(source);
        var _ := tsProject.Setup();
        var builtDir := tsProject.Build(path);
        container := Container(Arm64, From("node:alpine"),
          [ WithDirectory("/app", builtDir), WithWorkdir("/app"), WithEntrypoint(["npm", "run", "start"]) ]);
        assert builtDir == Node.ProjectFile(source, path);
      } else if serviceType == "docker" {
        container := Container(Arm64, DockerfileBuild(source, dockerfile), []);
      } else {
        return Failure("Unsupported type: " + serviceType);
      }

      var imageTag := VersionedTag(gitHash, dateTag);
      var fullImageName := ImageName(registry, imageName);

      published := published + [Publish(Staged(container, [WithRegistryAuth(registry, RegistryUser, awsECRToken)]),
                                        Reference(fullImageName, imageTag))];
      published := published + [Publish(Staged(container, [WithRegistryAuth(registry, RegistryUser, awsECRToken)]),
                                        Reference(fullImageName, LatestTag))];
      r := Success("Successfully built and pushed " + Reference(fullImageName, imageTag));
      assert ServiceContainer(source, Call(name, imageName, path, serviceType, dockerfile, buildCommand)) == Success(container);
    }

    /** Runs every call in order, logging all their publishes; the first error rejects the batch. */
    method PushCalls(calls: seq<Call>) returns (r: Result<seq<string>, string>)
      modifies this`published
      ensures var o := BatchRelease(Settings(), calls);
        r == o.result && published == old(published) + o.pushes
    {
      r := Success([]);
      var i := 0;
      while i < |calls|
        invariant 0 <= i <= |calls|
        invariant r == BatchRelease(Settings(), calls[..i]).result
        invariant published == old(published) + BatchRelease(Settings(), calls[..i]).pushes
      {
        var c := calls[i];
        var one := BuildAndPushService(c.name, c.imageName, c.path, c.serviceType, c.dockerfile, c.buildCommand);
        assert calls[..i + 1][..i] == calls[..i];
        r := Join(r, one);
        i := i + 1;
      }
      assert calls[..i] == calls;
    }

    /** The batch as written: it rejects with `Unsupported type: cmd/platform.auth` and publishes nothing. */
    method BuildAndPushAll() returns (r: Result<seq<string>, string>)
      modifies this`published
      ensures var o := BatchRelease(Settings(), AsWrittenCalls(Services()));
        r == o.result && published == old(published) + o.pushes
      ensures r == Failure("Unsupported type: cmd/platform.auth") && published == old(published)
    {
      r := PushCalls(AsWrittenCalls(Services()));
      AsWrittenBatchRejects(Settings());
    }

    /** The batch as intended: seven messages, and two publishes per service in list order. */
    method BuildAndPushAllIntended() returns (r: Result<seq<string>, string>)
      modifies this`published
      ensures var o := BatchRelease(Settings(), IntendedCalls(Services()));
        r == o.result && published == old(published) + o.pushes
      ensures r.Success? && |r.value| == 7 && |published| == |old(published)| + 14
    {
      r := PushCalls(IntendedCalls(Services()));
      IntendedBatchPublishesAll(Settings());
    }
  }
}
