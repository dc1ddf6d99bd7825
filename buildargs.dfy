/**
 * Build arguments for the server and gateway images: the version and build
 * number read from a "<version>-<build>" text, the product flavor derived
 * from the version prefix, and the optional memory and package-URL arguments.
 */
module BuildArgs {
  import opened Wrappers
  import opened Text
  import opened Topology

  /** Go's int64. */
  type Int64 = x: int | -0x8000_0000_0000_0000 <= x < 0x8000_0000_0000_0000

  datatype ULimit = ULimit(name: string, soft: Int64, hard: Int64)

  /** The decoded provider options file. */
  datatype DockerProviderOpts = DockerProviderOpts(
    build: string,
    syncGatewayVersion: string,
    buildUrlOverride: string,
    cpuPeriod: Int64,
    cpuQuota: Int64,
    memory: Int64,
    memorySwap: Int64,
    os: string,
    ulimits: seq<ULimit>)

  /** One `--build-arg NAME=value` of an image build. */
  datatype BuildArg = BuildArg(name: string, value: string)

  function ArgNames(args: seq<BuildArg>): seq<string>
  {
    seq(|args|, i requires 0 <= i < |args| => args[i].name)
  }

  /** The memory limit in (decimal) megabytes; Go's integer division truncates toward zero. */
  function MemoryMB(opts: DockerProviderOpts): (mb: int)
    ensures var m := opts.memory as int;
      m >= 0 ==> 0 <= mb && mb * 1000000 <= m < (mb + 1) * 1000000
    ensures var m := opts.memory as int;
      m < 0 ==> mb <= 0 && -mb * 1000000 <= -m < (-mb + 1) * 1000000
  {
    var m := opts.memory as int;
    if m >= 0 then m / 1000000 else -((-m) / 1000000)
  }

  /** The product flavor of a version: decided by the version's prefix. */
  function VersionFlavor(ver: string): (flavor: string)
    ensures flavor == "sherlock" <==> HasPrefix(ver, "4.1")
    ensures flavor == "watson" <==> HasPrefix(ver, "4.5") || HasPrefix(ver, "4.6")
    ensures flavor == "spock" <==> !HasPrefix(ver, "4.1") && !HasPrefix(ver, "4.5") && !HasPrefix(ver, "4.6")
  {
    IndexMeaning(ver, "4.1");
    IndexMeaning(ver, "4.5");
    IndexMeaning(ver, "4.6");
    if Index(ver, "4.1") == 0 then "sherlock"
    else if Index(ver, "4.5") == 0 then "watson"
    else if Index(ver, "4.6") == 0 then "watson"
    else if Index(ver, "4.7") == 0 then "spock"
    else if Index(ver, "5.0") == 0 then "spock"
    else "spock"
  }

  /** A known version maps to its flavor. */
  lemma FlavorOfKnownVersion()
    ensures VersionFlavor("4.5.0") == "watson"
  {
    assert "4.5.0"[..3] == "4.5";
    assert "4.1"[2] == '1';
  }

  /** A version newer than every listed prefix falls back to the newest flavor. */
  lemma FlavorOfNewerVersion()
    ensures VersionFlavor("5.5.0") == "spock"
  {
    assert "5.5.0"[0] == '5' && "4.1"[0] == '4' && "4.5"[0] == '4' && "4.6"[0] == '4';
  }

  /** So does a version older than every listed prefix. */
  lemma FlavorOfOlderVersion()
    ensures VersionFlavor("4.0.0") == "spock"
  {
    assert "4.0.0"[2] == '0';
    assert "4.1"[2] == '1' && "4.5"[2] == '5' && "4.6"[2] == '6';
  }

  /** `ver` and `build` are the first two '-'-separated fields of `text`. */
  predicate FieldsOf(text: string, ver: string, build: string)
  {
    && '-' !in ver && '-' !in build
    && HasPrefix(text, ver + "-" + build)
    && (|ver| + 1 + |build| == |text| || text[|ver| + 1 + |build|] == '-')
  }

  /** The first two '-'-separated fields, as the source reads them with
      `strings.Split(text, "-")` and indexes 0 and 1; without a '-' the
      index 1 does not exist. */
  function VersionFields(text: string): (r: Result<(string, string), ProvisionError>)
    ensures r.Failure? <==> '-' !in text
    ensures r.Failure? ==> r.error == MalformedVersion(text)
    ensures r.Success? ==> FieldsOf(text, r.value.0, r.value.1)
  {
    var parts := Split(text, '-');
    SplitCount(text, '-');
    if |parts| == 1 then Failure(MalformedVersion(text))
    else
      FirstTwoFields(text, '-');
      Success((parts[0], parts[1]))
  }

  /** The fields of a text are determined by it. */
  lemma FieldsOfUnique(text: string, a: string, b: string, c: string, d: string)
    requires FieldsOf(text, a, b) && FieldsOf(text, c, d)
    ensures a == c && b == d
  {
    assert forall k :: 0 <= k < |a| ==> text[k] == a[k];
    assert forall k :: 0 <= k < |c| ==> text[k] == c[k];
    assert text[|a|] == '-' && text[|c|] == '-';
    assert |a| == |c|;
    assert a == text[..|a|] == c;
    var n := |a| + 1;
    assert forall k :: 0 <= k < |b| ==> text[n + k] == b[k];
    assert forall k :: 0 <= k < |d| ==> text[n + k] == d[k];
    assert |b| == |d|;
    assert b == text[n..n + |b|] == d;
  }

  /** Reading the fields of "<ver>-<build>" gives back `ver` and `build`. */
  lemma VersionFieldsRoundTrip(ver: string, build: string)
    requires '-' !in ver && '-' !in build
    ensures VersionFields(ver + "-" + build) == Success((ver, build))
  {
    var text := ver + "-" + build;
    assert '-' in text by { assert text[|ver|] == '-'; }
    var r := VersionFields(text);
    assert FieldsOf(text, ver, build) by {
      assert text[..|ver| + 1 + |build|] == text;
    }
    FieldsOfUnique(text, r.value.0, r.value.1, ver, build);
  }

  /** The memory argument: present exactly when a memory limit is set. */
  function MemoryArgs(opts: DockerProviderOpts): seq<BuildArg>
  {
    if opts.memory > 0 then [BuildArg("MEMBASE_RAM_MEGS", Itoa(MemoryMB(opts)))] else []
  }

  /** The package-URL arguments: present exactly when an override is set. */
  function UrlArgs(opts: DockerProviderOpts): seq<BuildArg>
  {
    if opts.buildUrlOverride != "" then
      [BuildArg("BUILD_URL", opts.buildUrlOverride),
       BuildArg("BUILD_PKG", LastSegment(opts.buildUrlOverride, '/'))]
    else []
  }

  /** The build arguments of a server image, in order. */
  function BuildArgList(opts: DockerProviderOpts): Result<seq<BuildArg>, ProvisionError>
  {
    match VersionFields(opts.build)
    case Failure(e) => Failure(e)
    case Success((ver, build)) =>
      Success(
        [BuildArg("VERSION", ver), BuildArg("BUILD_NO", build), BuildArg("FLAVOR", VersionFlavor(ver))]
        + MemoryArgs(opts) + UrlArgs(opts))
  }

  /** The order and number of the server build arguments: version, build
      number and flavor first, the memory argument exactly when a memory limit
      is set, the two URL arguments exactly when an override is set. */
  lemma BuildArgListShape(opts: DockerProviderOpts)
    ensures BuildArgList(opts).Failure? <==> '-' !in opts.build
    ensures BuildArgList(opts).Success? ==>
      var args := BuildArgList(opts).value;
      && ArgNames(args) ==
           ["VERSION", "BUILD_NO", "FLAVOR"]
           + (if opts.memory > 0 then ["MEMBASE_RAM_MEGS"] else [])
           + (if opts.buildUrlOverride != "" then ["BUILD_URL", "BUILD_PKG"] else [])
      && |args| == 3 + (if opts.memory > 0 then 1 else 0) + (if opts.buildUrlOverride != "" then 2 else 0)
  {
    if BuildArgList(opts).Success? {
      var args := BuildArgList(opts).value;
      var (ver, build) := VersionFields(opts.build).value;
      var head := [BuildArg("VERSION", ver), BuildArg("BUILD_NO", build), BuildArg("FLAVOR", VersionFlavor(ver))];
      assert args == head + MemoryArgs(opts) + UrlArgs(opts);
      var expected := ["VERSION", "BUILD_NO", "FLAVOR"]
           + (if opts.memory > 0 then ["MEMBASE_RAM_MEGS"] else [])
           + (if opts.buildUrlOverride != "" then ["BUILD_URL", "BUILD_PKG"] else []);
      var names := ArgNames(args);
      assert |names| == |expected|;
      forall i | 0 <= i < |names| ensures names[i] == expected[i] {
        if i >= 3 + |MemoryArgs(opts)| {
          assert args[i] == UrlArgs(opts)[i - 3 - |MemoryArgs(opts)|];
        } else if i >= 3 {
          assert args[i] == MemoryArgs(opts)[i - 3];
        }
      }
    }
  }

  /** The first three server build arguments: the first two fields of the
      build text and the flavor of the version. */
  lemma BuildArgListHead(opts: DockerProviderOpts)
    requires BuildArgList(opts).Success?
    ensures var args := BuildArgList(opts).value;
      && |args| >= 3
      && FieldsOf(opts.build, args[0].value, args[1].value)
      && args[2].value == VersionFlavor(args[0].value)
  {
  }

  /** The memory argument holds the limit in megabytes, as decimal text that
      reads back as that number. */
  lemma BuildArgListMemory(opts: DockerProviderOpts)
    requires BuildArgList(opts).Success? && opts.memory > 0
    ensures var args := BuildArgList(opts).value;
      |args| >= 4 && Atoi(args[3].value) == Some(MemoryMB(opts)) && MemoryMB(opts) >= 0
  {
    var args := BuildArgList(opts).value;
    var (ver, build) := VersionFields(opts.build).value;
    var head := [BuildArg("VERSION", ver), BuildArg("BUILD_NO", build), BuildArg("FLAVOR", VersionFlavor(ver))];
    assert args == head + MemoryArgs(opts) + UrlArgs(opts);
    AtoiItoa(MemoryMB(opts));
    assert args[3] == MemoryArgs(opts)[0];
  }

  /** The last two arguments are the override URL and its last path segment. */
  lemma BuildArgListUrl(opts: DockerProviderOpts)
    requires BuildArgList(opts).Success? && opts.buildUrlOverride != ""
    ensures var args := BuildArgList(opts).value;
      var url := opts.buildUrlOverride;
      var pkg := args[|args| - 1].value;
      && |args| >= 5
      && args[|args| - 2].value == url
      && '/' !in pkg && |pkg| <= |url| && url[|url| - |pkg|..] == pkg
      && (pkg == url || url[|url| - |pkg| - 1] == '/')
  {
    var args := BuildArgList(opts).value;
    var (ver, build) := VersionFields(opts.build).value;
    var head := [BuildArg("VERSION", ver), BuildArg("BUILD_NO", build), BuildArg("FLAVOR", VersionFlavor(ver))];
    assert args == head + MemoryArgs(opts) + UrlArgs(opts);
    LastSegmentIsSuffix(opts.buildUrlOverride, '/');
    assert args[|args| - 2..] == UrlArgs(opts);
  }

  /** Builds the server build arguments by appending to a list, as the source does. */
  method BuildArgsForVersion(opts: DockerProviderOpts) returns (r: Result<seq<BuildArg>, ProvisionError>)
    ensures r == BuildArgList(opts)
  {
    var version := Split(opts.build, '-');
    SplitCount(opts.build, '-');
    if |version| == 1 {
      // reported as a format warning; the build number read below does not exist
      return Failure(MalformedVersion(opts.build));
    }
    var ver := version[0];
    var build := version[1];
    var buildArgs := [BuildArg("VERSION", ver), BuildArg("BUILD_NO", build), BuildArg("FLAVOR", VersionFlavor(ver))];
    ghost var head := buildArgs;
    assert VersionFields(opts.build) == Success((ver, build));
    if opts.memory > 0 {
      var ramMB := Itoa(MemoryMB(opts));
      buildArgs := buildArgs + [BuildArg("MEMBASE_RAM_MEGS", ramMB)];
    }
    assert buildArgs == head + MemoryArgs(opts);
    if opts.buildUrlOverride != "" {
      buildArgs := buildArgs + [BuildArg("BUILD_URL", opts.buildUrlOverride)];
      var buildParts := Split(opts.buildUrlOverride, '/');
      var buildPkg := buildParts[|buildParts| - 1];
      buildArgs := buildArgs + [BuildArg("BUILD_PKG", buildPkg)];
    }
    assert buildArgs == head + MemoryArgs(opts) + UrlArgs(opts);
    return Success(buildArgs);
  }

  /** The build arguments of a gateway image: version and build number only. */
  function BuildArgsForSyncGatewayVersion(opts: DockerProviderOpts): (r: Result<seq<BuildArg>, ProvisionError>)
    ensures r.Failure? <==> '-' !in opts.syncGatewayVersion
    ensures r.Failure? ==> r.error == MalformedVersion(opts.syncGatewayVersion)
    ensures r.Success? ==>
      && ArgNames(r.value) == ["VERSION", "BUILD_NO"]
      && FieldsOf(opts.syncGatewayVersion, r.value[0].value, r.value[1].value)
  {
    match VersionFields(opts.syncGatewayVersion)
    case Failure(e) => Failure(e)
    case Success((ver, build)) => Success([BuildArg("VERSION", ver), BuildArg("BUILD_NO", build)])
  }

  /** A gateway version written "<ver>-<build>" yields exactly those two arguments. */
  lemma GatewayArgsRoundTrip(opts: DockerProviderOpts, ver: string, build: string)
    requires '-' !in ver && '-' !in build
    requires opts.syncGatewayVersion == ver + "-" + build
    ensures BuildArgsForSyncGatewayVersion(opts) == Success([BuildArg("VERSION", ver), BuildArg("BUILD_NO", build)])
  {
    VersionFieldsRoundTrip(ver, build);
  }
}
