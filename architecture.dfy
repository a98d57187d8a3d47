/** The architecture resolver: maps a platform and a host CPU architecture to
    the architecture token ShellCheck's release names use, through the static
    `config.binaries` table (src/utils/shellCheckArchitecture.ts). */
module Architecture {
  import opened Wrappers

  /** `NodeJS.Platform`, e.g. "linux", "darwin", "win32". */
  type Platform = string
  /** `NodeJS.Architecture`, e.g. "x64", "arm64". */
  type Arch = string
  /** The vendor's architecture token, e.g. "x86_64", "aarch64". */
  type Token = string

  /** `ShellCheckArchitectureArgs`: both fields may be omitted. */
  datatype ArchitectureArgs = ArchitectureArgs(architecture: Option<Arch>, platform: Option<Platform>)

  /** What `process.arch` and `process.platform` report on the running host. */
  datatype Process = Process(arch: Arch, platform: Platform)

  /** `Required<ShellCheckArchitectureArgs>`: the arguments after defaulting. */
  datatype Options = Options(architecture: Arch, platform: Platform)

  /** One entry of `config.binaries`: the platform's (host architecture,
      vendor token) pairs, in table order. */
  datatype Binary = Binary(architectures: seq<(Arch, Token)>)

  /** `config.binaries`, read-only configuration keyed by platform. */
  type Binaries = map<Platform, Binary>

  /** `ArchitectureError`, thrown when no token is known. */
  datatype ArchitectureError = ArchitectureError

  /** The defaulting step: an omitted argument (or omitted `args`) takes the
      host's value, an explicit one is kept. */
  function ResolveOptions(args: Option<ArchitectureArgs>, process: Process): (opts: Options)
    ensures args.None? ==> opts == Options(process.arch, process.platform)
    ensures args.Some? && args.value.architecture.Some? ==> opts.architecture == args.value.architecture.value
    ensures args.Some? && args.value.architecture.None? ==> opts.architecture == process.arch
    ensures args.Some? && args.value.platform.Some? ==> opts.platform == args.value.platform.value
    ensures args.Some? && args.value.platform.None? ==> opts.platform == process.platform
  {
    match args
    case None => Options(process.arch, process.platform)
    case Some(a) => Options(a.architecture.GetOr(process.arch), a.platform.GetOr(process.platform))
  }

  /** Index `i` holds the first pair of `archs` whose host architecture is `arch`. */
  ghost predicate FirstMatchAt(archs: seq<(Arch, Token)>, arch: Arch, i: int) {
    0 <= i < |archs| && archs[i].0 == arch && forall j :: 0 <= j < i ==> archs[j].0 != arch
  }

  /** No pair of `archs` has `arch` as its host architecture. */
  ghost predicate NoMatch(archs: seq<(Arch, Token)>, arch: Arch) {
    forall i :: 0 <= i < |archs| ==> archs[i].0 != arch
  }

  /** `archs.find((pair) => pair[0] === arch)`: the first matching pair, if any. */
  function Find(archs: seq<(Arch, Token)>, arch: Arch): (r: Option<(Arch, Token)>)
    ensures r.None? <==> NoMatch(archs, arch)
    ensures r.Some? ==> exists i :: FirstMatchAt(archs, arch, i) && archs[i] == r.value
  {
    if |archs| == 0 then None
    else if archs[0].0 == arch then
      assert FirstMatchAt(archs, arch, 0);
      Some(archs[0])
    else
      var r := Find(archs[1..], arch);
      assert r.Some? ==> exists i :: FirstMatchAt(archs[1..], arch, i) && archs[1..][i] == r.value;
      assert forall i :: FirstMatchAt(archs[1..], arch, i) ==> FirstMatchAt(archs, arch, i + 1);
      r
  }

  /** `shellCheckArchitecture(args)`: the token of the first pair of the
      resolved platform's table whose host architecture is the resolved
      architecture; `ArchitectureError` when the platform has no entry or no
      pair matches. */
  function ShellCheckArchitecture(args: Option<ArchitectureArgs>, process: Process, binaries: Binaries)
    : (r: Result<Token, ArchitectureError>)
    ensures var o := ResolveOptions(args, process);
      r.Failure? <==> o.platform !in binaries || NoMatch(binaries[o.platform].architectures, o.architecture)
    ensures var o := ResolveOptions(args, process);
      r.Success? ==>
        o.platform in binaries &&
        exists i :: FirstMatchAt(binaries[o.platform].architectures, o.architecture, i) &&
                    r.value == binaries[o.platform].architectures[i].1
  {
    var opts := ResolveOptions(args, process);
    var found := if opts.platform in binaries then Find(binaries[opts.platform].architectures, opts.architecture) else None;
    match found
    case None => Failure(ArchitectureError)
    case Some(pair) => Success(pair.1)
  }

  /** The first matching pair decides: whatever later pairs say, the token
      returned is the one at the first index whose architecture matches. */
  lemma FirstMatchWins(args: Option<ArchitectureArgs>, process: Process, binaries: Binaries, i: int)
    requires var o := ResolveOptions(args, process);
      o.platform in binaries && FirstMatchAt(binaries[o.platform].architectures, o.architecture, i)
    ensures var o := ResolveOptions(args, process);
      ShellCheckArchitecture(args, process, binaries) == Success(binaries[o.platform].architectures[i].1)
  {
    var o := ResolveOptions(args, process);
    var archs := binaries[o.platform].architectures;
    var r := ShellCheckArchitecture(args, process, binaries);
    assert r.Success? by { assert archs[i].0 == o.architecture; }
    var k :| FirstMatchAt(archs, o.architecture, k) && r.value == archs[k].1;
    assert k == i;
  }

  /** Soundness: a returned token comes from a pair of the resolved platform's
      table whose host architecture is the resolved architecture. */
  lemma Soundness(args: Option<ArchitectureArgs>, process: Process, binaries: Binaries, t: Token)
    requires ShellCheckArchitecture(args, process, binaries) == Success(t)
    ensures var o := ResolveOptions(args, process);
      o.platform in binaries && (o.architecture, t) in binaries[o.platform].architectures
  {
    var o := ResolveOptions(args, process);
    var archs := binaries[o.platform].architectures;
    var k :| FirstMatchAt(archs, o.architecture, k) && t == archs[k].1;
    assert archs[k] == (o.architecture, t);
  }

  /** Completeness: if some pair of the resolved platform's table has the
      resolved architecture, the resolver returns rather than throws. */
  lemma Completeness(args: Option<ArchitectureArgs>, process: Process, binaries: Binaries, t: Token)
    requires var o := ResolveOptions(args, process);
      o.platform in binaries && (o.architecture, t) in binaries[o.platform].architectures
    ensures ShellCheckArchitecture(args, process, binaries).Success?
  {
    var o := ResolveOptions(args, process);
    var archs := binaries[o.platform].architectures;
    var k :| 0 <= k < |archs| && archs[k] == (o.architecture, t);
    assert archs[k].0 == o.architecture;
  }

  /** Absence of the platform from the table always throws. */
  lemma UnknownPlatformThrows(args: Option<ArchitectureArgs>, process: Process, binaries: Binaries)
    requires ResolveOptions(args, process).platform !in binaries
    ensures ShellCheckArchitecture(args, process, binaries) == Failure(ArchitectureError)
  {
  }

  /** The resolver reads nothing but the resolved options and the table: two
      calls that resolve to the same (platform, architecture) agree. */
  lemma DependsOnlyOnOptions(args1: Option<ArchitectureArgs>, process1: Process,
                             args2: Option<ArchitectureArgs>, process2: Process, binaries: Binaries)
    requires ResolveOptions(args1, process1) == ResolveOptions(args2, process2)
    ensures ShellCheckArchitecture(args1, process1, binaries) == ShellCheckArchitecture(args2, process2, binaries)
  {
  }

  /** The table's architectures are unique per platform. */
  ghost predicate UniqueArchitectures(archs: seq<(Arch, Token)>) {
    forall i, j :: 0 <= i < |archs| && 0 <= j < |archs| && archs[i].0 == archs[j].0 ==> i == j
  }

  /** With a unique-keyed table (the configuration's own invariant), the
      resolver is exactly a lookup: it returns t iff (arch, t) is listed. */
  lemma UniqueTableLookup(args: Option<ArchitectureArgs>, process: Process, binaries: Binaries, t: Token)
    requires var o := ResolveOptions(args, process);
      o.platform in binaries && UniqueArchitectures(binaries[o.platform].architectures)
    ensures var o := ResolveOptions(args, process);
      ShellCheckArchitecture(args, process, binaries) == Success(t) <==>
      (o.architecture, t) in binaries[o.platform].architectures
  {
    var o := ResolveOptions(args, process);
    var archs := binaries[o.platform].architectures;
    if (o.architecture, t) in archs {
      var k :| 0 <= k < |archs| && archs[k] == (o.architecture, t);
      assert FirstMatchAt(archs, o.architecture, k);
      FirstMatchWins(args, process, binaries, k);
    }
    if ShellCheckArchitecture(args, process, binaries) == Success(t) {
      Soundness(args, process, binaries, t);
    }
  }
}
